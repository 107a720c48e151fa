/**
 * The fixed-size matrices of lab8/common/math.js (and its copy lab6/common/math2d.js):
 * `M3` and `M4` are arrays of 9 and 16 numbers in column-major order.  The static methods
 * build fresh matrices from straight-line expressions and are functions on the entries
 * here; `reset` and `resetRotation` loop over the entries of a matrix object in place and
 * are methods of the classes at the end.
 */
module FixedMatrices {
  import opened Wrappers
  import opened Sums
  import opened Layout
  import opened Cofactors
  import opened FixedVectors
  import opened Trigonometry

  // ---------------------------------------------------------------- 3 x 3

  /** `M3.IDENTITY`. */
  const Identity3: seq<real> := [1.0, 0.0, 0.0, 0.0, 1.0, 0.0, 0.0, 0.0, 1.0]

  /** `M3.determinant`, expanded along the first row with the names the source gives the entries. */
  function Det3(m: seq<real>): real
    requires |m| == 9
  {
    var a, b, c := m[0], m[3], m[6];
    var d, e, f := m[1], m[4], m[7];
    var g, h, i := m[2], m[5], m[8];
    Times(a, Times(e, i) - Times(f, h)) - Times(b, Times(d, i) - Times(f, g)) + Times(c, Times(d, h) - Times(e, g))
  }

  /** `M3.translationMatrix(x, y)`: the identity with x, y in the last column. */
  function Translation3(x: real, y: real): (r: seq<real>)
    ensures |r| == 9
  {
    [1.0, 0.0, 0.0, 0.0, 1.0, 0.0, x, y, 1.0]
  }

  /** `M3.rotationMatrix`, given the cosine c and sine s of the angle. */
  function Rotation3(c: real, s: real): (r: seq<real>)
    ensures |r| == 9
  {
    [c, s, 0.0, -s, c, 0.0, 0.0, 0.0, 1.0]
  }

  /** `M3.scaleMatrix(x, y)`. */
  function Scale3(x: real, y: real): (r: seq<real>)
    ensures |r| == 9
  {
    [x, 0.0, 0.0, 0.0, y, 0.0, 0.0, 0.0, 1.0]
  }

  /** `M3.multM3(a, b)`: entry r + 3c is row r of a times column c of b. */
  function Mult3(a: seq<real>, b: seq<real>): (r: seq<real>)
    requires |a| == 9 && |b| == 9
    ensures |r| == 9
  {
    [Times(a[0], b[0]) + Times(a[3], b[1]) + Times(a[6], b[2]),
     Times(a[1], b[0]) + Times(a[4], b[1]) + Times(a[7], b[2]),
     Times(a[2], b[0]) + Times(a[5], b[1]) + Times(a[8], b[2]),
     Times(a[0], b[3]) + Times(a[3], b[4]) + Times(a[6], b[5]),
     Times(a[1], b[3]) + Times(a[4], b[4]) + Times(a[7], b[5]),
     Times(a[2], b[3]) + Times(a[5], b[4]) + Times(a[8], b[5]),
     Times(a[0], b[6]) + Times(a[3], b[7]) + Times(a[6], b[8]),
     Times(a[1], b[6]) + Times(a[4], b[7]) + Times(a[7], b[8]),
     Times(a[2], b[6]) + Times(a[5], b[7]) + Times(a[8], b[8])]
  }

  /** `M3.multV3(m, v)`. */
  function MultV3by3(m: seq<real>, v: Triple): Triple
    requires |m| == 9
  {
    Triple(m[0] * v.x + m[3] * v.y + m[6] * v.z,
           m[1] * v.x + m[4] * v.y + m[7] * v.z,
           m[2] * v.x + m[5] * v.y + m[8] * v.z)
  }

  /** `M3.multV2(m, v)`: v is taken as the point (v.x, v.y, 1). */
  function MultV2by3(m: seq<real>, v: Pair): Pair
    requires |m| == 9
  {
    Pair(m[0] * v.x + m[3] * v.y + m[6] * 1.0,
         m[1] * v.x + m[4] * v.y + m[7] * 1.0)
  }

  /** The cofactors `M3.invert` computes, in the places it puts them, before dividing. */
  function Adjugate3(m: seq<real>): (r: seq<real>)
    requires |m| == 9
    ensures |r| == 9
  {
    [Det2(m[4], m[7], m[5], m[8]),
     -Det2(m[1], m[7], m[2], m[8]),
     Det2(m[1], m[4], m[2], m[5]),
     -Det2(m[3], m[6], m[5], m[8]),
     Det2(m[0], m[6], m[2], m[8]),
     -Det2(m[0], m[3], m[2], m[5]),
     Det2(m[3], m[6], m[4], m[7]),
     -Det2(m[0], m[6], m[1], m[7]),
     Det2(m[0], m[3], m[1], m[4])]
  }

  /**
   * `M3.invert(m)`: every cofactor divided by the determinant.  The source divides without
   * a check; a zero determinant is outside this model (see the README).
   */
  function Invert3(m: seq<real>): (r: seq<real>)
    requires |m| == 9 && Det3(m) != 0.0
    ensures |r| == 9
  {
    var d := Det3(m);
    var c := Adjugate3(m);
    [c[0] / d, c[1] / d, c[2] / d, c[3] / d, c[4] / d, c[5] / d, c[6] / d, c[7] / d, c[8] / d]
  }

  /**
   * `M3.transpose(m)` as written: it starts from the all-zero `new M3()` and copies only the
   * six off-diagonal entries, so the diagonal of the result is 0.
   */
  function Transpose3(m: seq<real>): (r: seq<real>)
    requires |m| == 9
    ensures |r| == 9
  {
    [0.0, m[3], m[6], m[1], 0.0, m[7], m[2], m[5], 0.0]
  }

  /** The transpose `M3.transpose` is meant to compute: the diagonal is copied as well. */
  function Transposed3(m: seq<real>): (r: seq<real>)
    requires |m| == 9
    ensures |r| == 9
  {
    [m[0], m[3], m[6], m[1], m[4], m[7], m[2], m[5], m[8]]
  }

  /** `multM3(IDENTITY, m)` and `multM3(m, IDENTITY)` are m. */
  lemma Mult3Identity(m: seq<real>)
    requires |m| == 9
    ensures Mult3(Identity3, m) == m && Mult3(m, Identity3) == m
  {
  }

  /** `multV2(translationMatrix(x, y), v)` moves the point v by (x, y); `multV3` does the same to (v, 1). */
  lemma TranslationMovesPoint3(x: real, y: real, v: Pair)
    ensures MultV2by3(Translation3(x, y), v) == Plus2(v, Pair(x, y))
    ensures MultV3by3(Translation3(x, y), Triple(v.x, v.y, 1.0)) == Triple(v.x + x, v.y + y, 1.0)
  {
  }

  lemma Adjugate3Entries0(m: seq<real>)
    requires |m| == 9
    ensures Mult3(m, Adjugate3(m))[0] == Det3(m)
    ensures Mult3(m, Adjugate3(m))[1] == 0.0
    ensures Mult3(m, Adjugate3(m))[2] == 0.0
  {
    Adjugate3Column0(m[0], m[1], m[2], m[3], m[4], m[5], m[6], m[7], m[8], Adjugate3(m)[0], Adjugate3(m)[1], Adjugate3(m)[2], Det3(m));
  }

  lemma Adjugate3Entries1(m: seq<real>)
    requires |m| == 9
    ensures Mult3(m, Adjugate3(m))[3] == 0.0
    ensures Mult3(m, Adjugate3(m))[4] == Det3(m)
    ensures Mult3(m, Adjugate3(m))[5] == 0.0
  {
    Adjugate3Column1(m[0], m[1], m[2], m[3], m[4], m[5], m[6], m[7], m[8], Adjugate3(m)[3], Adjugate3(m)[4], Adjugate3(m)[5], Det3(m));
  }

  lemma Adjugate3Entries2(m: seq<real>)
    requires |m| == 9
    ensures Mult3(m, Adjugate3(m))[6] == 0.0
    ensures Mult3(m, Adjugate3(m))[7] == 0.0
    ensures Mult3(m, Adjugate3(m))[8] == Det3(m)
  {
    Adjugate3Column2(m[0], m[1], m[2], m[3], m[4], m[5], m[6], m[7], m[8], Adjugate3(m)[6], Adjugate3(m)[7], Adjugate3(m)[8], Det3(m));
  }

  /** A matrix times `Adjugate3(m)` is its determinant times the identity. */
  lemma Adjugate3Identity(m: seq<real>)
    requires |m| == 9
    ensures var d := Det3(m); Mult3(m, Adjugate3(m)) == [d, 0.0, 0.0, 0.0, d, 0.0, 0.0, 0.0, d]
  {
    Adjugate3Entries0(m);
    Adjugate3Entries1(m);
    Adjugate3Entries2(m);
  }

  lemma Invert3Column0(m: seq<real>)
    requires |m| == 9 && Det3(m) != 0.0
    ensures Mult3(m, Invert3(m))[0] == 1.0
    ensures Mult3(m, Invert3(m))[1] == 0.0
    ensures Mult3(m, Invert3(m))[2] == 0.0
  {
    var d, c := Det3(m), Adjugate3(m);
    Adjugate3Entries0(m);
    DivideColumn3(m[0], m[3], m[6], c[0], c[1], c[2], d);
    DivideColumn3(m[1], m[4], m[7], c[0], c[1], c[2], d);
    DivideColumn3(m[2], m[5], m[8], c[0], c[1], c[2], d);
  }

  lemma Invert3Column1(m: seq<real>)
    requires |m| == 9 && Det3(m) != 0.0
    ensures Mult3(m, Invert3(m))[3] == 0.0
    ensures Mult3(m, Invert3(m))[4] == 1.0
    ensures Mult3(m, Invert3(m))[5] == 0.0
  {
    var d, c := Det3(m), Adjugate3(m);
    Adjugate3Entries1(m);
    DivideColumn3(m[0], m[3], m[6], c[3], c[4], c[5], d);
    DivideColumn3(m[1], m[4], m[7], c[3], c[4], c[5], d);
    DivideColumn3(m[2], m[5], m[8], c[3], c[4], c[5], d);
  }

  lemma Invert3Column2(m: seq<real>)
    requires |m| == 9 && Det3(m) != 0.0
    ensures Mult3(m, Invert3(m))[6] == 0.0
    ensures Mult3(m, Invert3(m))[7] == 0.0
    ensures Mult3(m, Invert3(m))[8] == 1.0
  {
    var d, c := Det3(m), Adjugate3(m);
    Adjugate3Entries2(m);
    DivideColumn3(m[0], m[3], m[6], c[6], c[7], c[8], d);
    DivideColumn3(m[1], m[4], m[7], c[6], c[7], c[8], d);
    DivideColumn3(m[2], m[5], m[8], c[6], c[7], c[8], d);
  }

  /** When the determinant is not zero, `multM3(m, invert(m))` is the identity. */
  lemma Invert3Correct(m: seq<real>)
    requires |m| == 9 && Det3(m) != 0.0
    ensures Mult3(m, Invert3(m)) == Identity3
  {
    Invert3Column0(m);
    Invert3Column1(m);
    Invert3Column2(m);

  }

  /**
   * `M3.transpose` agrees with the transpose exactly when the diagonal of m is zero, so for
   * the identity it returns the zero matrix.
   */
  lemma Transpose3AsWritten(m: seq<real>)
    requires |m| == 9
    ensures Transpose3(m) == Transposed3(m) <==> m[0] == 0.0 && m[4] == 0.0 && m[8] == 0.0
    ensures Transpose3(Identity3) == seq(9, _ => 0.0)
  {
    if Transpose3(m) == Transposed3(m) {
      assert Transpose3(m)[0] == Transposed3(m)[0] && Transpose3(m)[4] == Transposed3(m)[4];
      assert Transpose3(m)[8] == Transposed3(m)[8];
    }
  }

  /** The corrected transpose swaps rows and columns and undoes itself. */
  lemma Transposed3Swaps(m: seq<real>)
    requires |m| == 9
    ensures forall i, j :: 0 <= i < 3 && 0 <= j < 3 ==> Transposed3(m)[i + 3 * j] == m[j + 3 * i]
    ensures Transposed3(Transposed3(m)) == m
  {
  }

  /** A right factor whose last column is (0, 0, 1) keeps the last column of the left factor. */
  lemma Mult3LastColumn(a: seq<real>, b: seq<real>)
    requires |a| == 9 && |b| == 9 && b[6] == 0.0 && b[7] == 0.0 && b[8] == 1.0
    ensures Mult3(a, b)[6..] == a[6..]
  {
  }

  /** Rotations and scales keep (0, 0, 1) as their last column. */
  lemma Affine3(c: real, s: real, x: real, y: real)
    ensures Rotation3(c, s)[6..] == [0.0, 0.0, 1.0] && Scale3(x, y)[6..] == [0.0, 0.0, 1.0]
  {
  }

  /** Entry i + 3j of `multM3(a, b)` is row i of a times column j of b. */
  lemma Mult3Entry(a: seq<real>, b: seq<real>, i: int, j: int)
    requires |a| == 9 && |b| == 9 && 0 <= i < 3 && 0 <= j < 3
    ensures Mult3(a, b)[i + 3 * j] == Times(a[i], b[3 * j]) + Times(a[i + 3], b[1 + 3 * j]) + Times(a[i + 6], b[2 + 3 * j])
  {
    if j == 0 {
      if i == 0 { } else if i == 1 { } else { }
    } else if j == 1 {
      if i == 0 { } else if i == 1 { } else { }
    } else {
      if i == 0 { } else if i == 1 { } else { }
    }
  }

  /** f(0) + f(1) + f(2). */
  lemma Sum3(f: int -> real)
    ensures Sum(3, f) == f(0) + f(1) + f(2)
  {
  }

  /** Row i times column j in the generic library's terms, written out for 3 x 3 matrices. */
  lemma RowCol3(a: seq<real>, b: seq<real>, i: int, j: int)
    requires |a| == 9 && |b| == 9 && 0 <= i < 3 && 0 <= j < 3
    ensures RowCol(a, b, 3, 3, i, j) == Times(a[i], b[3 * j]) + Times(a[i + 3], b[1 + 3 * j]) + Times(a[i + 6], b[2 + 3 * j])
  {
    var t := Term(a, b, 3, 3, i, j);
    Sum3(t);
    assert t(0) == Times(a[i], b[3 * j]);
    assert t(1) == Times(a[i + 3], b[1 + 3 * j]);
    assert t(2) == Times(a[i + 6], b[2 + 3 * j]);
  }

  /** `multM3` is the matrix product of the generic library's layout, for 3 x 3 matrices. */
  lemma Mult3IsMatMul(a: seq<real>, b: seq<real>)
    requires |a| == 9 && |b| == 9
    ensures Mult3(a, b) == MatMul(a, b, 3, 3, 3)
  {
    MatMulEntries(a, b, 3, 3, 3);
    forall i, j | 0 <= i < 3 && 0 <= j < 3 ensures Get(Mult3(a, b), 3, i, j) == RowCol(a, b, 3, 3, i, j) {
      RowCol3(a, b, i, j);
      Mult3Entry(a, b, i, j);
    }
    Ext(Mult3(a, b), MatMul(a, b, 3, 3, 3), 3, 3);
  }

  /** `multM3` is associative. */
  lemma Mult3Assoc(a: seq<real>, b: seq<real>, c: seq<real>)
    requires |a| == 9 && |b| == 9 && |c| == 9
    ensures Mult3(Mult3(a, b), c) == Mult3(a, Mult3(b, c))
  {
    Mult3IsMatMul(a, b);
    Mult3IsMatMul(b, c);
    Mult3IsMatMul(Mult3(a, b), c);
    Mult3IsMatMul(a, Mult3(b, c));
    MulAssoc(a, b, c, 3, 3, 3, 3);
  }

  /** Row (p q r) of a product, entries c0 c3 c6, applied to (x, y, z) is that row applied to the right factor's image. */
  lemma ComposeRow3(p: real, q: real, r: real, b0: real, b1: real, b2: real, b3: real, b4: real, b5: real,
                    b6: real, b7: real, b8: real, x: real, y: real, z: real, c0: real, c3: real, c6: real)
    requires c0 == Times(p, b0) + Times(q, b1) + Times(r, b2)
    requires c3 == Times(p, b3) + Times(q, b4) + Times(r, b5)
    requires c6 == Times(p, b6) + Times(q, b7) + Times(r, b8)
    ensures c0 * x + c3 * y + c6 * z == p * (b0 * x + b3 * y + b6 * z) + q * (b1 * x + b4 * y + b7 * z) + r * (b2 * x + b5 * y + b8 * z)
  {
  }

  /** `multV3` by a product applies the right factor first, then the left one. */
  lemma MultV3by3Composes(a: seq<real>, b: seq<real>, v: Triple)
    requires |a| == 9 && |b| == 9
    ensures MultV3by3(Mult3(a, b), v) == MultV3by3(a, MultV3by3(b, v))
  {
    var ab := Mult3(a, b);
    ComposeRow3(a[0], a[3], a[6], b[0], b[1], b[2], b[3], b[4], b[5], b[6], b[7], b[8], v.x, v.y, v.z, ab[0], ab[3], ab[6]);
    ComposeRow3(a[1], a[4], a[7], b[0], b[1], b[2], b[3], b[4], b[5], b[6], b[7], b[8], v.x, v.y, v.z, ab[1], ab[4], ab[7]);
    ComposeRow3(a[2], a[5], a[8], b[0], b[1], b[2], b[3], b[4], b[5], b[6], b[7], b[8], v.x, v.y, v.z, ab[2], ab[5], ab[8]);
    var w := MultV3by3(b, v);
    assert MultV3by3(ab, v).x == MultV3by3(a, w).x;
    assert MultV3by3(ab, v).y == MultV3by3(a, w).y;
    assert MultV3by3(ab, v).z == MultV3by3(a, w).z;
  }

  /** `multV2` is `multV3` on the point (v.x, v.y, 1) with the third coordinate dropped. */
  lemma MultV2by3IsPoint(m: seq<real>, v: Pair)
    requires |m| == 9
    ensures var w := MultV3by3(m, Triple(v.x, v.y, 1.0)); MultV2by3(m, v) == Pair(w.x, w.y)
  {
    var w := MultV3by3(m, Triple(v.x, v.y, 1.0));
    assert MultV2by3(m, v).x == w.x && MultV2by3(m, v).y == w.y;
  }

  /** `ComposeRow3` for a right factor with last row (0, 0, 1), applied to the point (x, y, 1). */
  lemma ComposeAffineRow3(p: real, q: real, r: real, b0: real, b1: real, b3: real, b4: real, b6: real, b7: real,
                          x: real, y: real, c0: real, c3: real, c6: real)
    requires c0 == Times(p, b0) + Times(q, b1) + Times(r, 0.0)
    requires c3 == Times(p, b3) + Times(q, b4) + Times(r, 0.0)
    requires c6 == Times(p, b6) + Times(q, b7) + Times(r, 1.0)
    ensures c0 * x + c3 * y + c6 * 1.0 == p * (b0 * x + b3 * y + b6 * 1.0) + q * (b1 * x + b4 * y + b7 * 1.0) + r * 1.0
  {
  }

  /** `multV2` by a product applies the right factor first, when that factor keeps the last row (0, 0, 1). */
  lemma MultV2by3Composes(a: seq<real>, b: seq<real>, v: Pair)
    requires |a| == 9 && |b| == 9 && b[2] == 0.0 && b[5] == 0.0 && b[8] == 1.0
    ensures MultV2by3(Mult3(a, b), v) == MultV2by3(a, MultV2by3(b, v))
  {
    var ab := Mult3(a, b);
    ComposeAffineRow3(a[0], a[3], a[6], b[0], b[1], b[3], b[4], b[6], b[7], v.x, v.y, ab[0], ab[3], ab[6]);
    ComposeAffineRow3(a[1], a[4], a[7], b[0], b[1], b[3], b[4], b[6], b[7], v.x, v.y, ab[1], ab[4], ab[7]);
    var w := MultV2by3(b, v);
    assert MultV2by3(ab, v).x == MultV2by3(a, w).x;
    assert MultV2by3(ab, v).y == MultV2by3(a, w).y;
  }

  /** `determinant` does not change under the transpose. */
  lemma Det3Transposed(m: seq<real>)
    requires |m| == 9
    ensures Det3(Transposed3(m)) == Det3(m)
  {
  }

  // ---------------------------------------------------------------- 4 x 4

  /** `M4.IDENTITY`. */
  const Identity4: seq<real> := [1.0, 0.0, 0.0, 0.0, 0.0, 1.0, 0.0, 0.0, 0.0, 0.0, 1.0, 0.0, 0.0, 0.0, 0.0, 1.0]

  /** `M4.translationMatrix(x, y, z)`: the identity with x, y, z in the last column. */
  function Translation4(x: real, y: real, z: real): (r: seq<real>)
    ensures |r| == 16
  {
    [1.0, 0.0, 0.0, 0.0, 0.0, 1.0, 0.0, 0.0, 0.0, 0.0, 1.0, 0.0, x, y, z, 1.0]
  }

  /** `M4.scaleMatrix(x, y, z)`. */
  function Scale4(x: real, y: real, z: real): (r: seq<real>)
    ensures |r| == 16
  {
    [x, 0.0, 0.0, 0.0, 0.0, y, 0.0, 0.0, 0.0, 0.0, z, 0.0, 0.0, 0.0, 0.0, 1.0]
  }

  /** `M4.rotationMatrixX`, given the cosine c and sine s of the angle. */
  function RotationX4(c: real, s: real): (r: seq<real>)
    ensures |r| == 16
  {
    [1.0, 0.0, 0.0, 0.0, 0.0, c, s, 0.0, 0.0, -s, c, 0.0, 0.0, 0.0, 0.0, 1.0]
  }

  /** `M4.rotationMatrixY`, given the cosine c and sine s of the angle. */
  function RotationY4(c: real, s: real): (r: seq<real>)
    ensures |r| == 16
  {
    [c, 0.0, -s, 0.0, 0.0, 1.0, 0.0, 0.0, s, 0.0, c, 0.0, 0.0, 0.0, 0.0, 1.0]
  }

  /** `M4.rotationMatrixZ`, given the cosine c and sine s of the angle. */
  function RotationZ4(c: real, s: real): (r: seq<real>)
    ensures |r| == 16
  {
    [c, s, 0.0, 0.0, -s, c, 0.0, 0.0, 0.0, 0.0, 1.0, 0.0, 0.0, 0.0, 0.0, 1.0]
  }

  /**
   * `M4.ortho(left, right, bottom, top, near, far)`.  The source divides by the three
   * differences unchecked; equal bounds are outside this model (see the README).
   */
  function Ortho(left: real, right: real, bottom: real, top: real, near: real, far: real): (r: seq<real>)
    requires left != right && bottom != top && near != far
    ensures |r| == 16
  {
    var lr := 1.0 / (left - right);
    var bt := 1.0 / (bottom - top);
    var nf := 1.0 / (near - far);
    [-2.0 * lr, 0.0, 0.0, 0.0,
     0.0, -2.0 * bt, 0.0, 0.0,
     0.0, 0.0, 2.0 * nf, 0.0,
     (left + right) * lr, (top + bottom) * bt, (far + near) * nf, 1.0]
  }

  /**
   * The branch of `M4.lookAtMatrix(from, to, up)` taken when from equals to: the identity
   * with up (by default (0, 1, 0)) as its second column and from as its translation.
   */
  function LookAtSamePoint(from: Triple, up: Option<Triple>): (r: seq<real>)
    ensures |r| == 16
  {
    var u := if up.None? then Triple(0.0, 1.0, 0.0) else up.value;
    [1.0, 0.0, 0.0, 0.0, u.x, u.y, u.z, 0.0, 0.0, 0.0, 1.0, 0.0, from.x, from.y, from.z, 1.0]
  }

  /** `M4.transpose(m)`: all sixteen entries, result[4i + j] = m[4j + i]. */
  function Transpose4(m: seq<real>): (r: seq<real>)
    requires |m| == 16
    ensures |r| == 16
  {
    [m[0], m[4], m[8], m[12],
     m[1], m[5], m[9], m[13],
     m[2], m[6], m[10], m[14],
     m[3], m[7], m[11], m[15]]
  }

  /** `M4.multV3(m, v)`: v is taken as the point (v, 1). */
  function MultV3by4(m: seq<real>, v: Triple): Triple
    requires |m| == 16
  {
    Triple(m[0] * v.x + m[4] * v.y + m[8] * v.z + m[12],
           m[1] * v.x + m[5] * v.y + m[9] * v.z + m[13],
           m[2] * v.x + m[6] * v.y + m[10] * v.z + m[14])
  }

  /** `M4.multM4(a, b)`: entry r + 4c is row r of a times column c of b. */
  function Mult4(a: seq<real>, b: seq<real>): (r: seq<real>)
    requires |a| == 16 && |b| == 16
    ensures |r| == 16
  {
    [Times(a[0], b[0]) + Times(a[4], b[1]) + Times(a[8], b[2]) + Times(a[12], b[3]),
     Times(a[1], b[0]) + Times(a[5], b[1]) + Times(a[9], b[2]) + Times(a[13], b[3]),
     Times(a[2], b[0]) + Times(a[6], b[1]) + Times(a[10], b[2]) + Times(a[14], b[3]),
     Times(a[3], b[0]) + Times(a[7], b[1]) + Times(a[11], b[2]) + Times(a[15], b[3]),
     Times(a[0], b[4]) + Times(a[4], b[5]) + Times(a[8], b[6]) + Times(a[12], b[7]),
     Times(a[1], b[4]) + Times(a[5], b[5]) + Times(a[9], b[6]) + Times(a[13], b[7]),
     Times(a[2], b[4]) + Times(a[6], b[5]) + Times(a[10], b[6]) + Times(a[14], b[7]),
     Times(a[3], b[4]) + Times(a[7], b[5]) + Times(a[11], b[6]) + Times(a[15], b[7]),
     Times(a[0], b[8]) + Times(a[4], b[9]) + Times(a[8], b[10]) + Times(a[12], b[11]),
     Times(a[1], b[8]) + Times(a[5], b[9]) + Times(a[9], b[10]) + Times(a[13], b[11]),
     Times(a[2], b[8]) + Times(a[6], b[9]) + Times(a[10], b[10]) + Times(a[14], b[11]),
     Times(a[3], b[8]) + Times(a[7], b[9]) + Times(a[11], b[10]) + Times(a[15], b[11]),
     Times(a[0], b[12]) + Times(a[4], b[13]) + Times(a[8], b[14]) + Times(a[12], b[15]),
     Times(a[1], b[12]) + Times(a[5], b[13]) + Times(a[9], b[14]) + Times(a[13], b[15]),
     Times(a[2], b[12]) + Times(a[6], b[13]) + Times(a[10], b[14]) + Times(a[14], b[15]),
     Times(a[3], b[12]) + Times(a[7], b[13]) + Times(a[11], b[14]) + Times(a[15], b[15])]
  }

  /** `M4.invert`'s determinant, from the twelve 2 x 2 minors b00 .. b11 of the source. */
  function Det4(m: seq<real>): real
    requires |m| == 16
  {
    var b00 := Times(m[0], m[5]) - Times(m[1], m[4]);
    var b01 := Times(m[0], m[6]) - Times(m[2], m[4]);
    var b02 := Times(m[0], m[7]) - Times(m[3], m[4]);
    var b03 := Times(m[1], m[6]) - Times(m[2], m[5]);
    var b04 := Times(m[1], m[7]) - Times(m[3], m[5]);
    var b05 := Times(m[2], m[7]) - Times(m[3], m[6]);
    var b06 := Times(m[8], m[13]) - Times(m[9], m[12]);
    var b07 := Times(m[8], m[14]) - Times(m[10], m[12]);
    var b08 := Times(m[8], m[15]) - Times(m[11], m[12]);
    var b09 := Times(m[9], m[14]) - Times(m[10], m[13]);
    var b10 := Times(m[9], m[15]) - Times(m[11], m[13]);
    var b11 := Times(m[10], m[15]) - Times(m[11], m[14]);
    Times(b00, b11) - Times(b01, b10) + Times(b02, b09) + Times(b03, b08) - Times(b04, b07) + Times(b05, b06)
  }

  /** The cofactors `M4.invert` computes, in the places it puts them, before scaling. */
  function Adjugate4(m: seq<real>): (r: seq<real>)
    requires |m| == 16
    ensures |r| == 16
  {
    var b00 := Times(m[0], m[5]) - Times(m[1], m[4]);
    var b01 := Times(m[0], m[6]) - Times(m[2], m[4]);
    var b02 := Times(m[0], m[7]) - Times(m[3], m[4]);
    var b03 := Times(m[1], m[6]) - Times(m[2], m[5]);
    var b04 := Times(m[1], m[7]) - Times(m[3], m[5]);
    var b05 := Times(m[2], m[7]) - Times(m[3], m[6]);
    var b06 := Times(m[8], m[13]) - Times(m[9], m[12]);
    var b07 := Times(m[8], m[14]) - Times(m[10], m[12]);
    var b08 := Times(m[8], m[15]) - Times(m[11], m[12]);
    var b09 := Times(m[9], m[14]) - Times(m[10], m[13]);
    var b10 := Times(m[9], m[15]) - Times(m[11], m[13]);
    var b11 := Times(m[10], m[15]) - Times(m[11], m[14]);
    [Times(m[5], b11) - Times(m[6], b10) + Times(m[7], b09),
     Times(m[2], b10) - Times(m[1], b11) - Times(m[3], b09),
     Times(m[13], b05) - Times(m[14], b04) + Times(m[15], b03),
     Times(m[10], b04) - Times(m[9], b05) - Times(m[11], b03),
     Times(m[6], b08) - Times(m[4], b11) - Times(m[7], b07),
     Times(m[0], b11) - Times(m[2], b08) + Times(m[3], b07),
     Times(m[14], b02) - Times(m[12], b05) - Times(m[15], b01),
     Times(m[8], b05) - Times(m[10], b02) + Times(m[11], b01),
     Times(m[4], b10) - Times(m[5], b08) + Times(m[7], b06),
     Times(m[1], b08) - Times(m[0], b10) - Times(m[3], b06),
     Times(m[12], b04) - Times(m[13], b02) + Times(m[15], b00),
     Times(m[9], b02) - Times(m[8], b04) - Times(m[11], b00),
     Times(m[5], b07) - Times(m[4], b09) - Times(m[6], b06),
     Times(m[0], b09) - Times(m[1], b07) + Times(m[2], b06),
     Times(m[13], b01) - Times(m[12], b03) - Times(m[14], b00),
     Times(m[8], b03) - Times(m[9], b01) + Times(m[10], b00)]
  }

  /** `M4.invert(m)`: `false` (None here) when the determinant is 0, else the cofactors times 1 / det. */
  function Invert4(m: seq<real>): (r: Option<seq<real>>)
    requires |m| == 16
    ensures r.Some? ==> |r.value| == 16
  {
    var det := Det4(m);
    if det == 0.0 then None
    else
      var s := 1.0 / det;
      var x := Adjugate4(m);
      Some([Times(x[0], s), Times(x[1], s), Times(x[2], s), Times(x[3], s),
            Times(x[4], s), Times(x[5], s), Times(x[6], s), Times(x[7], s),
            Times(x[8], s), Times(x[9], s), Times(x[10], s), Times(x[11], s),
            Times(x[12], s), Times(x[13], s), Times(x[14], s), Times(x[15], s)])
  }

  /**
   * `M4.inverseTranspose3x3(m)`: `null` (None here) when the determinant is 0, else the
   * 3 x 3 matrix whose entry r + 3c is the cofactor of `invert` at c + 4r, times 1 / det.
   */
  function InverseTranspose3x3(m: seq<real>): (r: Option<seq<real>>)
    requires |m| == 16
    ensures r.Some? ==> |r.value| == 9
  {
    var det := Det4(m);
    if det == 0.0 then None
    else
      var s := 1.0 / det;
      var x := Adjugate4(m);
      Some([Times(x[0], s), Times(x[4], s), Times(x[8], s),
            Times(x[1], s), Times(x[5], s), Times(x[9], s),
            Times(x[2], s), Times(x[6], s), Times(x[10], s)])
  }

  lemma Adjugate4Entries0(m: seq<real>)
    requires |m| == 16
    ensures Mult4(m, Adjugate4(m))[0] == Det4(m)
    ensures Mult4(m, Adjugate4(m))[1] == 0.0
    ensures Mult4(m, Adjugate4(m))[2] == 0.0
    ensures Mult4(m, Adjugate4(m))[3] == 0.0
  {
    Adjugate4Column0(m[0], m[1], m[2], m[3], m[4], m[5], m[6], m[7], m[8], m[9], m[10], m[11], m[12], m[13], m[14], m[15],
      Times(m[0], m[5]) - Times(m[1], m[4]), Times(m[0], m[6]) - Times(m[2], m[4]), Times(m[0], m[7]) - Times(m[3], m[4]), Times(m[1], m[6]) - Times(m[2], m[5]), Times(m[1], m[7]) - Times(m[3], m[5]), Times(m[2], m[7]) - Times(m[3], m[6]), Times(m[8], m[13]) - Times(m[9], m[12]), Times(m[8], m[14]) - Times(m[10], m[12]), Times(m[8], m[15]) - Times(m[11], m[12]), Times(m[9], m[14]) - Times(m[10], m[13]), Times(m[9], m[15]) - Times(m[11], m[13]), Times(m[10], m[15]) - Times(m[11], m[14]),
      Adjugate4(m)[0], Adjugate4(m)[1], Adjugate4(m)[2], Adjugate4(m)[3], Det4(m));
  }

  lemma Adjugate4Entries1(m: seq<real>)
    requires |m| == 16
    ensures Mult4(m, Adjugate4(m))[4] == 0.0
    ensures Mult4(m, Adjugate4(m))[5] == Det4(m)
    ensures Mult4(m, Adjugate4(m))[6] == 0.0
    ensures Mult4(m, Adjugate4(m))[7] == 0.0
  {
    Adjugate4Column1(m[0], m[1], m[2], m[3], m[4], m[5], m[6], m[7], m[8], m[9], m[10], m[11], m[12], m[13], m[14], m[15],
      Times(m[0], m[5]) - Times(m[1], m[4]), Times(m[0], m[6]) - Times(m[2], m[4]), Times(m[0], m[7]) - Times(m[3], m[4]), Times(m[1], m[6]) - Times(m[2], m[5]), Times(m[1], m[7]) - Times(m[3], m[5]), Times(m[2], m[7]) - Times(m[3], m[6]), Times(m[8], m[13]) - Times(m[9], m[12]), Times(m[8], m[14]) - Times(m[10], m[12]), Times(m[8], m[15]) - Times(m[11], m[12]), Times(m[9], m[14]) - Times(m[10], m[13]), Times(m[9], m[15]) - Times(m[11], m[13]), Times(m[10], m[15]) - Times(m[11], m[14]),
      Adjugate4(m)[4], Adjugate4(m)[5], Adjugate4(m)[6], Adjugate4(m)[7], Det4(m));
  }

  lemma Adjugate4Entries2(m: seq<real>)
    requires |m| == 16
    ensures Mult4(m, Adjugate4(m))[8] == 0.0
    ensures Mult4(m, Adjugate4(m))[9] == 0.0
    ensures Mult4(m, Adjugate4(m))[10] == Det4(m)
    ensures Mult4(m, Adjugate4(m))[11] == 0.0
  {
    Adjugate4Column2(m[0], m[1], m[2], m[3], m[4], m[5], m[6], m[7], m[8], m[9], m[10], m[11], m[12], m[13], m[14], m[15],
      Times(m[0], m[5]) - Times(m[1], m[4]), Times(m[0], m[6]) - Times(m[2], m[4]), Times(m[0], m[7]) - Times(m[3], m[4]), Times(m[1], m[6]) - Times(m[2], m[5]), Times(m[1], m[7]) - Times(m[3], m[5]), Times(m[2], m[7]) - Times(m[3], m[6]), Times(m[8], m[13]) - Times(m[9], m[12]), Times(m[8], m[14]) - Times(m[10], m[12]), Times(m[8], m[15]) - Times(m[11], m[12]), Times(m[9], m[14]) - Times(m[10], m[13]), Times(m[9], m[15]) - Times(m[11], m[13]), Times(m[10], m[15]) - Times(m[11], m[14]),
      Adjugate4(m)[8], Adjugate4(m)[9], Adjugate4(m)[10], Adjugate4(m)[11], Det4(m));
  }

  lemma Adjugate4Entries3(m: seq<real>)
    requires |m| == 16
    ensures Mult4(m, Adjugate4(m))[12] == 0.0
    ensures Mult4(m, Adjugate4(m))[13] == 0.0
    ensures Mult4(m, Adjugate4(m))[14] == 0.0
    ensures Mult4(m, Adjugate4(m))[15] == Det4(m)
  {
    Adjugate4Column3(m[0], m[1], m[2], m[3], m[4], m[5], m[6], m[7], m[8], m[9], m[10], m[11], m[12], m[13], m[14], m[15],
      Times(m[0], m[5]) - Times(m[1], m[4]), Times(m[0], m[6]) - Times(m[2], m[4]), Times(m[0], m[7]) - Times(m[3], m[4]), Times(m[1], m[6]) - Times(m[2], m[5]), Times(m[1], m[7]) - Times(m[3], m[5]), Times(m[2], m[7]) - Times(m[3], m[6]), Times(m[8], m[13]) - Times(m[9], m[12]), Times(m[8], m[14]) - Times(m[10], m[12]), Times(m[8], m[15]) - Times(m[11], m[12]), Times(m[9], m[14]) - Times(m[10], m[13]), Times(m[9], m[15]) - Times(m[11], m[13]), Times(m[10], m[15]) - Times(m[11], m[14]),
      Adjugate4(m)[12], Adjugate4(m)[13], Adjugate4(m)[14], Adjugate4(m)[15], Det4(m));
  }

  /** A matrix times `Adjugate4(m)` is its determinant times the identity. */
  lemma Adjugate4Identity(m: seq<real>)
    requires |m| == 16
    ensures var d := Det4(m);
      Mult4(m, Adjugate4(m)) == [d, 0.0, 0.0, 0.0, 0.0, d, 0.0, 0.0, 0.0, 0.0, d, 0.0, 0.0, 0.0, 0.0, d]
  {
    Adjugate4Entries0(m);
    Adjugate4Entries1(m);
    Adjugate4Entries2(m);
    Adjugate4Entries3(m);
  }

  lemma Invert4Column0(m: seq<real>)
    requires |m| == 16 && Det4(m) != 0.0
    ensures Mult4(m, Invert4(m).value)[0] == 1.0
    ensures Mult4(m, Invert4(m).value)[1] == 0.0
    ensures Mult4(m, Invert4(m).value)[2] == 0.0
    ensures Mult4(m, Invert4(m).value)[3] == 0.0
  {
    var d := Det4(m);
    var s, x := 1.0 / d, Adjugate4(m);
    Adjugate4Entries0(m);
    assert Times(d, s) == 1.0;
    ScaleColumn4(m[0], m[4], m[8], m[12], x[0], x[1], x[2], x[3], s);
    ScaleColumn4(m[1], m[5], m[9], m[13], x[0], x[1], x[2], x[3], s);
    ScaleColumn4(m[2], m[6], m[10], m[14], x[0], x[1], x[2], x[3], s);
    ScaleColumn4(m[3], m[7], m[11], m[15], x[0], x[1], x[2], x[3], s);
  }

  lemma Invert4Column1(m: seq<real>)
    requires |m| == 16 && Det4(m) != 0.0
    ensures Mult4(m, Invert4(m).value)[4] == 0.0
    ensures Mult4(m, Invert4(m).value)[5] == 1.0
    ensures Mult4(m, Invert4(m).value)[6] == 0.0
    ensures Mult4(m, Invert4(m).value)[7] == 0.0
  {
    var d := Det4(m);
    var s, x := 1.0 / d, Adjugate4(m);
    Adjugate4Entries1(m);
    assert Times(d, s) == 1.0;
    ScaleColumn4(m[0], m[4], m[8], m[12], x[4], x[5], x[6], x[7], s);
    ScaleColumn4(m[1], m[5], m[9], m[13], x[4], x[5], x[6], x[7], s);
    ScaleColumn4(m[2], m[6], m[10], m[14], x[4], x[5], x[6], x[7], s);
    ScaleColumn4(m[3], m[7], m[11], m[15], x[4], x[5], x[6], x[7], s);
  }

  lemma Invert4Column2(m: seq<real>)
    requires |m| == 16 && Det4(m) != 0.0
    ensures Mult4(m, Invert4(m).value)[8] == 0.0
    ensures Mult4(m, Invert4(m).value)[9] == 0.0
    ensures Mult4(m, Invert4(m).value)[10] == 1.0
    ensures Mult4(m, Invert4(m).value)[11] == 0.0
  {
    var d := Det4(m);
    var s, x := 1.0 / d, Adjugate4(m);
    Adjugate4Entries2(m);
    assert Times(d, s) == 1.0;
    ScaleColumn4(m[0], m[4], m[8], m[12], x[8], x[9], x[10], x[11], s);
    ScaleColumn4(m[1], m[5], m[9], m[13], x[8], x[9], x[10], x[11], s);
    ScaleColumn4(m[2], m[6], m[10], m[14], x[8], x[9], x[10], x[11], s);
    ScaleColumn4(m[3], m[7], m[11], m[15], x[8], x[9], x[10], x[11], s);
  }

  lemma Invert4Column3(m: seq<real>)
    requires |m| == 16 && Det4(m) != 0.0
    ensures Mult4(m, Invert4(m).value)[12] == 0.0
    ensures Mult4(m, Invert4(m).value)[13] == 0.0
    ensures Mult4(m, Invert4(m).value)[14] == 0.0
    ensures Mult4(m, Invert4(m).value)[15] == 1.0
  {
    var d := Det4(m);
    var s, x := 1.0 / d, Adjugate4(m);
    Adjugate4Entries3(m);
    assert Times(d, s) == 1.0;
    ScaleColumn4(m[0], m[4], m[8], m[12], x[12], x[13], x[14], x[15], s);
    ScaleColumn4(m[1], m[5], m[9], m[13], x[12], x[13], x[14], x[15], s);
    ScaleColumn4(m[2], m[6], m[10], m[14], x[12], x[13], x[14], x[15], s);
    ScaleColumn4(m[3], m[7], m[11], m[15], x[12], x[13], x[14], x[15], s);
  }

  /**
   * `M4.invert(m)` fails exactly when the determinant is 0; otherwise `multM4(m, invert(m))`
   * is the identity.
   */
  lemma Invert4Correct(m: seq<real>)
    requires |m| == 16
    ensures Invert4(m).None? <==> Det4(m) == 0.0
    ensures Invert4(m).Some? ==> Mult4(m, Invert4(m).value) == Identity4
  {
    if Det4(m) != 0.0 {
      Invert4Column0(m);
      Invert4Column1(m);
      Invert4Column2(m);
      Invert4Column3(m);

    }
  }

  /**
   * `inverseTranspose3x3(m)` is `null` exactly when `invert(m)` is `false`; otherwise its
   * entry r + 3c is entry c + 4r of `invert(m)`: the transposed upper-left block of the inverse.
   */
  lemma InverseTransposeOfInverse(m: seq<real>)
    requires |m| == 16
    ensures InverseTranspose3x3(m).None? <==> Invert4(m).None?
    ensures InverseTranspose3x3(m).Some? ==>
      forall r, c :: 0 <= r < 3 && 0 <= c < 3 ==> InverseTranspose3x3(m).value[r + 3 * c] == Invert4(m).value[c + 4 * r]
  {
  }

  /** `M4.transpose` puts entry 4j + i at 4i + j, and applying it twice gives back m. */
  lemma Transpose4Swaps(m: seq<real>)
    requires |m| == 16
    ensures forall i, j :: 0 <= i < 4 && 0 <= j < 4 ==> Transpose4(m)[4 * i + j] == m[4 * j + i]
    ensures Transpose4(Transpose4(m)) == m
  {
  }

  /** `multM4(IDENTITY, m)` and `multM4(m, IDENTITY)` are m. */
  lemma Mult4Identity(m: seq<real>)
    requires |m| == 16
    ensures Mult4(Identity4, m) == m && Mult4(m, Identity4) == m
  {
  }

  /** Entry i + 4j of `multM4(a, b)` is row i of a times column j of b. */
  lemma Mult4Entry(a: seq<real>, b: seq<real>, i: int, j: int)
    requires |a| == 16 && |b| == 16 && 0 <= i < 4 && 0 <= j < 4
    ensures Mult4(a, b)[i + 4 * j]
         == Times(a[i], b[4 * j]) + Times(a[i + 4], b[1 + 4 * j]) + Times(a[i + 8], b[2 + 4 * j]) + Times(a[i + 12], b[3 + 4 * j])
  {
    if j == 0 {
      if i == 0 { } else if i == 1 { } else if i == 2 { } else { }
    } else if j == 1 {
      if i == 0 { } else if i == 1 { } else if i == 2 { } else { }
    } else if j == 2 {
      if i == 0 { } else if i == 1 { } else if i == 2 { } else { }
    } else {
      if i == 0 { } else if i == 1 { } else if i == 2 { } else { }
    }
  }

  /** f(0) + f(1) + f(2) + f(3). */
  lemma Sum4(f: int -> real)
    ensures Sum(4, f) == f(0) + f(1) + f(2) + f(3)
  {
  }

  /** Row i times column j in the generic library's terms, written out for 4 x 4 matrices. */
  lemma RowCol4(a: seq<real>, b: seq<real>, i: int, j: int)
    requires |a| == 16 && |b| == 16 && 0 <= i < 4 && 0 <= j < 4
    ensures RowCol(a, b, 4, 4, i, j)
         == Times(a[i], b[4 * j]) + Times(a[i + 4], b[1 + 4 * j]) + Times(a[i + 8], b[2 + 4 * j]) + Times(a[i + 12], b[3 + 4 * j])
  {
    var t := Term(a, b, 4, 4, i, j);
    Sum4(t);
    assert t(0) == Times(a[i], b[4 * j]);
    assert t(1) == Times(a[i + 4], b[1 + 4 * j]);
    assert t(2) == Times(a[i + 8], b[2 + 4 * j]);
    assert t(3) == Times(a[i + 12], b[3 + 4 * j]);
  }

  /** `multM4` is the matrix product of the generic library's layout, for 4 x 4 matrices. */
  lemma Mult4IsMatMul(a: seq<real>, b: seq<real>)
    requires |a| == 16 && |b| == 16
    ensures Mult4(a, b) == MatMul(a, b, 4, 4, 4)
  {
    MatMulEntries(a, b, 4, 4, 4);
    forall i, j | 0 <= i < 4 && 0 <= j < 4 ensures Get(Mult4(a, b), 4, i, j) == RowCol(a, b, 4, 4, i, j) {
      RowCol4(a, b, i, j);
      Mult4Entry(a, b, i, j);
    }
    Ext(Mult4(a, b), MatMul(a, b, 4, 4, 4), 4, 4);
  }

  /** `multM4` is associative, so a nested product equals the left-to-right one. */
  lemma Mult4Assoc(a: seq<real>, b: seq<real>, c: seq<real>)
    requires |a| == 16 && |b| == 16 && |c| == 16
    ensures Mult4(Mult4(a, b), c) == Mult4(a, Mult4(b, c))
  {
    Mult4IsMatMul(a, b);
    Mult4IsMatMul(b, c);
    Mult4IsMatMul(Mult4(a, b), c);
    Mult4IsMatMul(a, Mult4(b, c));
    MulAssoc(a, b, c, 4, 4, 4, 4);
  }

  /**
   * `a` multiplied on the right by each factor in turn, as a chain of
   * `m = M4.multM4(m, factor)` statements computes it.
   */
  function Product4(a: seq<real>, factors: seq<seq<real>>): (r: seq<real>)
    requires |a| == 16 && forall k :: 0 <= k < |factors| ==> |factors[k]| == 16
    ensures |r| == 16
    decreases |factors|
  {
    if factors == [] then a else Mult4(Product4(a, factors[..|factors| - 1]), factors[|factors| - 1])
  }

  /** One more factor on the right multiplies the chain's product by it. */
  lemma Product4Snoc(a: seq<real>, factors: seq<seq<real>>, f: seq<real>)
    requires |a| == 16 && |f| == 16 && forall k :: 0 <= k < |factors| ==> |factors[k]| == 16
    ensures Product4(a, factors + [f]) == Mult4(Product4(a, factors), f)
  {
    assert (factors + [f])[..|factors|] == factors;
  }

  /** Products nested to the right, `f0 * (f1 * (... * fn))`, as `Mult(a, Mult(b, c))` calls build them. */
  function Nested4(factors: seq<seq<real>>): (r: seq<real>)
    requires |factors| >= 1 && forall k :: 0 <= k < |factors| ==> |factors[k]| == 16
    ensures |r| == 16
    decreases |factors|
  {
    if |factors| == 1 then factors[0] else Mult4(factors[0], Nested4(factors[1..]))
  }

  /** Multiplying left to right and nesting to the right give the same matrix. */
  lemma {:induction false} Product4Nested(a: seq<real>, factors: seq<seq<real>>)
    requires |a| == 16 && |factors| >= 1 && forall k :: 0 <= k < |factors| ==> |factors[k]| == 16
    ensures Product4(a, factors) == Mult4(a, Nested4(factors))
    decreases |factors|
  {
    var n := |factors|;
    if n > 1 {
      var init, last := factors[..n - 1], factors[n - 1];
      assert init + [last] == factors;
      Product4Nested(a, init);
      Mult4Assoc(a, Nested4(init), last);
      Nested4Snoc(init, last);
    }
  }

  /** A nested product with one more factor on the right: `Nested4(fs + [f]) == Nested4(fs) * f`. */
  lemma {:induction false} Nested4Snoc(factors: seq<seq<real>>, f: seq<real>)
    requires |factors| >= 1 && |f| == 16 && forall k :: 0 <= k < |factors| ==> |factors[k]| == 16
    ensures Nested4(factors + [f]) == Mult4(Nested4(factors), f)
    decreases |factors|
  {
    var fs := factors + [f];
    if |factors| == 1 {
      assert fs[1..] == [f];
    } else {
      assert fs[1..] == factors[1..] + [f];
      Nested4Snoc(factors[1..], f);
      Mult4Assoc(factors[0], Nested4(factors[1..]), f);
    }
  }

  /** Right factors that keep the last column (0, 0, 0, 1) keep the last column of the product's start. */
  lemma {:induction false} Product4LastColumn(a: seq<real>, factors: seq<seq<real>>)
    requires |a| == 16 && forall k :: 0 <= k < |factors| ==> |factors[k]| == 16
    requires forall k :: 0 <= k < |factors| ==> factors[k][12..] == [0.0, 0.0, 0.0, 1.0]
    ensures Product4(a, factors)[12..] == a[12..]
    decreases |factors|
  {
    var n := |factors|;
    if n > 0 {
      Product4LastColumn(a, factors[..n - 1]);
      var last := factors[n - 1];
      assert last[12..] == [0.0, 0.0, 0.0, 1.0];
      assert last[12] == 0.0 && last[13] == 0.0 && last[14] == 0.0 && last[15] == 1.0;
      Mult4LastColumn(Product4(a, factors[..n - 1]), last);
    }
  }

  /** A product of matrices with bottom row (0, 0, 0, 1) has that bottom row. */
  lemma {:induction false} Product4Affine(a: seq<real>, factors: seq<seq<real>>)
    requires |a| == 16 && forall k :: 0 <= k < |factors| ==> |factors[k]| == 16
    requires Affine4(a) && forall k :: 0 <= k < |factors| ==> Affine4(factors[k])
    ensures Affine4(Product4(a, factors))
    decreases |factors|
  {
    var n := |factors|;
    if n > 0 {
      Product4Affine(a, factors[..n - 1]);
      Mult4Affine(Product4(a, factors[..n - 1]), factors[n - 1]);
    }
  }

  /** Multiplying by identities changes nothing. */
  lemma {:induction false} Product4Identity(a: seq<real>, factors: seq<seq<real>>)
    requires |a| == 16 && forall k :: 0 <= k < |factors| ==> factors[k] == Identity4
    ensures Product4(a, factors) == a
    decreases |factors|
  {
    var n := |factors|;
    if n > 0 {
      Product4Identity(a, factors[..n - 1]);
      Mult4Identity(a);
    }
  }

  /** A right factor whose last column is (0, 0, 0, 1) keeps the last column of the left factor. */
  lemma Mult4LastColumn(a: seq<real>, b: seq<real>)
    requires |a| == 16 && |b| == 16 && b[12] == 0.0 && b[13] == 0.0 && b[14] == 0.0 && b[15] == 1.0
    ensures Mult4(a, b)[12..] == a[12..]
  {
  }

  /** Rotations, scales and translations keep the bottom row (0, 0, 0, 1) ... */
  predicate Affine4(m: seq<real>)
    requires |m| == 16
  {
    m[3] == 0.0 && m[7] == 0.0 && m[11] == 0.0 && m[15] == 1.0
  }

  /** The product of two matrices with bottom row (0, 0, 0, 1) has that bottom row too. */
  lemma Mult4Affine(a: seq<real>, b: seq<real>)
    requires |a| == 16 && |b| == 16 && Affine4(a) && Affine4(b)
    ensures Affine4(Mult4(a, b))
  {
  }

  /** The upper three entries of column k: for k < 3 the image of the k-th unit vector. */
  function Axis4(m: seq<real>, k: int): Triple
    requires |m| == 16 && 0 <= k < 4
  {
    Triple(m[4 * k], m[4 * k + 1], m[4 * k + 2])
  }

  /** Multiplying by `scaleMatrix(x, y, z)` on the right scales the first three columns by x, y and z. */
  lemma ScaleColumns4(a: seq<real>, x: real, y: real, z: real)
    requires |a| == 16
    ensures Axis4(Mult4(a, Scale4(x, y, z)), 0) == Scaled3(Axis4(a, 0), x)
    ensures Axis4(Mult4(a, Scale4(x, y, z)), 1) == Scaled3(Axis4(a, 1), y)
    ensures Axis4(Mult4(a, Scale4(x, y, z)), 2) == Scaled3(Axis4(a, 2), z)
  {
  }

  /** A translation on the left leaves the first three columns of a matrix with bottom row (0, 0, 0, 1) alone. */
  lemma TranslationKeepsAxes4(x: real, y: real, z: real, b: seq<real>)
    requires |b| == 16 && Affine4(b)
    ensures Axis4(Mult4(Translation4(x, y, z), b), 0) == Axis4(b, 0)
    ensures Axis4(Mult4(Translation4(x, y, z), b), 1) == Axis4(b, 1)
    ensures Axis4(Mult4(Translation4(x, y, z), b), 2) == Axis4(b, 2)
  {
  }

  /** ... and rotations and scales also keep (0, 0, 0, 1) as their last column. */
  lemma Linear4(c: real, s: real, x: real, y: real, z: real)
    ensures RotationX4(c, s)[12..] == [0.0, 0.0, 0.0, 1.0] && RotationY4(c, s)[12..] == [0.0, 0.0, 0.0, 1.0]
    ensures RotationZ4(c, s)[12..] == [0.0, 0.0, 0.0, 1.0] && Scale4(x, y, z)[12..] == [0.0, 0.0, 0.0, 1.0]
  {
  }

  /** `multV3(translationMatrix(x, y, z), v)` is v + (x, y, z). */
  lemma TranslationMovesPoint4(x: real, y: real, z: real, v: Triple)
    ensures MultV3by4(Translation4(x, y, z), v) == Plus3(v, Triple(x, y, z))
  {
  }

  /**
   * Row (p q r s) of a product whose right factor has bottom row (0, 0, 0, 1), entries
   * c0 c4 c8 c12, applied to (x, y, z, 1) is that row applied to the right factor's image.
   */
  lemma ComposeAffineRow4(p: real, q: real, r: real, s: real, b0: real, b1: real, b2: real,
                          b4: real, b5: real, b6: real, b8: real, b9: real, b10: real,
                          b12: real, b13: real, b14: real, x: real, y: real, z: real,
                          c0: real, c4: real, c8: real, c12: real, wx: real, wy: real, wz: real)
    requires c0 == Times(p, b0) + Times(q, b1) + Times(r, b2) + Times(s, 0.0)
    requires c4 == Times(p, b4) + Times(q, b5) + Times(r, b6) + Times(s, 0.0)
    requires c8 == Times(p, b8) + Times(q, b9) + Times(r, b10) + Times(s, 0.0)
    requires c12 == Times(p, b12) + Times(q, b13) + Times(r, b14) + Times(s, 1.0)
    requires wx == b0 * x + b4 * y + b8 * z + b12 && wy == b1 * x + b5 * y + b9 * z + b13
    requires wz == b2 * x + b6 * y + b10 * z + b14
    ensures c0 * x + c4 * y + c8 * z + c12 == p * wx + q * wy + r * wz + s
  {
  }

  /** `multV3` by a product applies the right factor first, when that factor has bottom row (0, 0, 0, 1). */
  lemma MultV3by4Composes(a: seq<real>, b: seq<real>, v: Triple)
    requires |a| == 16 && |b| == 16 && Affine4(b)
    ensures MultV3by4(Mult4(a, b), v) == MultV3by4(a, MultV3by4(b, v))
  {
    var ab := Mult4(a, b);
    var w := MultV3by4(b, v);
    ComposeAffineRow4(a[0], a[4], a[8], a[12], b[0], b[1], b[2], b[4], b[5], b[6], b[8], b[9], b[10],
                      b[12], b[13], b[14], v.x, v.y, v.z, ab[0], ab[4], ab[8], ab[12], w.x, w.y, w.z);
    ComposeAffineRow4(a[1], a[5], a[9], a[13], b[0], b[1], b[2], b[4], b[5], b[6], b[8], b[9], b[10],
                      b[12], b[13], b[14], v.x, v.y, v.z, ab[1], ab[5], ab[9], ab[13], w.x, w.y, w.z);
    ComposeAffineRow4(a[2], a[6], a[10], a[14], b[0], b[1], b[2], b[4], b[5], b[6], b[8], b[9], b[10],
                      b[12], b[13], b[14], v.x, v.y, v.z, ab[2], ab[6], ab[10], ab[14], w.x, w.y, w.z);
    assert MultV3by4(ab, v).x == MultV3by4(a, w).x;
    assert MultV3by4(ab, v).y == MultV3by4(a, w).y;
    assert MultV3by4(ab, v).z == MultV3by4(a, w).z;
  }

  /** The 3 x 3 minor of m without row i and column 0, in column-major order. */
  function Minor4(m: seq<real>, i: int): (r: seq<real>)
    requires |m| == 16 && 0 <= i < 4
    ensures |r| == 9
  {
    var r0, r1, r2 := if i == 0 then 1 else 0, if i <= 1 then 2 else 1, if i <= 2 then 3 else 2;
    [m[r0 + 4], m[r1 + 4], m[r2 + 4], m[r0 + 8], m[r1 + 8], m[r2 + 8], m[r0 + 12], m[r1 + 12], m[r2 + 12]]
  }

  /** `determinant` is the expansion along the first row. */
  lemma Det3Expansion(x: seq<real>)
    requires |x| == 9
    ensures Det3(x) == Expansion3(x[0], x[3], x[6], x[1], x[4], x[7], x[2], x[5], x[8])
  {
  }

  /** `invert`'s determinant over plain products of the entries. */
  lemma Det4Poly(m: seq<real>)
    requires |m| == 16
    ensures Det4(m) == Minors4(m[0], m[1], m[2], m[3], m[4], m[5], m[6], m[7], m[8], m[9], m[10], m[11], m[12], m[13], m[14], m[15])
  {
  }

  /** The same determinant as the expansion along the first column, over the entries. */
  lemma Det4Expansion(m: seq<real>)
    requires |m| == 16
    ensures Det4(m) == m[0] * Expansion3(m[5], m[9], m[13], m[6], m[10], m[14], m[7], m[11], m[15])
                     - m[1] * Expansion3(m[4], m[8], m[12], m[6], m[10], m[14], m[7], m[11], m[15])
                     + m[2] * Expansion3(m[4], m[8], m[12], m[5], m[9], m[13], m[7], m[11], m[15])
                     - m[3] * Expansion3(m[4], m[8], m[12], m[5], m[9], m[13], m[6], m[10], m[14])
  {
    Det4Poly(m);
    Laplace4Poly(m[0], m[1], m[2], m[3], m[4], m[5], m[6], m[7], m[8], m[9], m[10], m[11], m[12], m[13], m[14], m[15]);
  }

  /** The determinants of the four minors of the first column, over the entries. */
  lemma MinorDet4(m: seq<real>)
    requires |m| == 16
    ensures Times(m[0], Det3(Minor4(m, 0))) == m[0] * Expansion3(m[5], m[9], m[13], m[6], m[10], m[14], m[7], m[11], m[15])
    ensures Times(m[1], Det3(Minor4(m, 1))) == m[1] * Expansion3(m[4], m[8], m[12], m[6], m[10], m[14], m[7], m[11], m[15])
    ensures Times(m[2], Det3(Minor4(m, 2))) == m[2] * Expansion3(m[4], m[8], m[12], m[5], m[9], m[13], m[7], m[11], m[15])
    ensures Times(m[3], Det3(Minor4(m, 3))) == m[3] * Expansion3(m[4], m[8], m[12], m[5], m[9], m[13], m[6], m[10], m[14])
  {
    Det3Expansion(Minor4(m, 0));
    Det3Expansion(Minor4(m, 1));
    Det3Expansion(Minor4(m, 2));
    Det3Expansion(Minor4(m, 3));
  }

  /** `invert`'s determinant is the cofactor expansion along the first column. */
  lemma Det4Laplace(m: seq<real>)
    requires |m| == 16
    ensures Det4(m) == Times(m[0], Det3(Minor4(m, 0))) - Times(m[1], Det3(Minor4(m, 1)))
                     + Times(m[2], Det3(Minor4(m, 2))) - Times(m[3], Det3(Minor4(m, 3)))
  {
    Det4Expansion(m);
    MinorDet4(m);
  }

  /** The axis rotations with c^2 + s^2 = 1 are orthogonal: the transpose undoes them. */
  lemma RotationXOrthogonal(c: real, s: real)
    requires c * c + s * s == 1.0
    ensures Mult4(Transpose4(RotationX4(c, s)), RotationX4(c, s)) == Identity4
  {
    var m := Mult4(Transpose4(RotationX4(c, s)), RotationX4(c, s));
    assert m[0] == 1.0 && m[1] == 0.0 && m[2] == 0.0 && m[3] == 0.0;
    assert m[4] == 0.0 && m[5] == 1.0 && m[6] == 0.0 && m[7] == 0.0;
    assert m[8] == 0.0 && m[9] == 0.0 && m[10] == 1.0 && m[11] == 0.0;
  }

  lemma RotationYOrthogonal(c: real, s: real)
    requires c * c + s * s == 1.0
    ensures Mult4(Transpose4(RotationY4(c, s)), RotationY4(c, s)) == Identity4
  {
    var m := Mult4(Transpose4(RotationY4(c, s)), RotationY4(c, s));
    assert m[0] == 1.0 && m[1] == 0.0 && m[2] == 0.0 && m[3] == 0.0;
    assert m[4] == 0.0 && m[5] == 1.0 && m[6] == 0.0 && m[7] == 0.0;
    assert m[8] == 0.0 && m[9] == 0.0 && m[10] == 1.0 && m[11] == 0.0;
  }

  lemma RotationZOrthogonal(c: real, s: real)
    requires c * c + s * s == 1.0
    ensures Mult4(Transpose4(RotationZ4(c, s)), RotationZ4(c, s)) == Identity4
  {
    var m := Mult4(Transpose4(RotationZ4(c, s)), RotationZ4(c, s));
    assert m[0] == 1.0 && m[1] == 0.0 && m[2] == 0.0 && m[3] == 0.0;
    assert m[4] == 0.0 && m[5] == 1.0 && m[6] == 0.0 && m[7] == 0.0;
    assert m[8] == 0.0 && m[9] == 0.0 && m[10] == 1.0 && m[11] == 0.0;
  }

  /** `ortho` maps the near lower-left corner of its box to (-1, -1, -1) and the far upper-right one to (1, 1, 1). */
  lemma OrthoCorners(left: real, right: real, bottom: real, top: real, near: real, far: real)
    requires left != right && bottom != top && near != far
    ensures MultV3by4(Ortho(left, right, bottom, top, near, far), Triple(left, bottom, -near)) == Triple(-1.0, -1.0, -1.0)
    ensures MultV3by4(Ortho(left, right, bottom, top, near, far), Triple(right, top, -far)) == Triple(1.0, 1.0, 1.0)
  {
    var lr := 1.0 / (left - right);
    var bt := 1.0 / (bottom - top);
    var nf := 1.0 / (near - far);
    assert lr * (left - right) == 1.0 && bt * (bottom - top) == 1.0 && nf * (near - far) == 1.0;
  }

  /**
   * When from equals to, `lookAtMatrix` takes the origin to from, and without an up vector it
   * is just the translation to from.
   */
  lemma LookAtSamePointMovesOrigin(from: Triple, up: Option<Triple>)
    ensures MultV3by4(LookAtSamePoint(from, up), Zero3) == from
    ensures up.None? ==> LookAtSamePoint(from, up) == Translation4(from.x, from.y, from.z)
    ensures up.Some? ==> LookAtSamePoint(from, up)[4..7] == [up.value.x, up.value.y, up.value.z]
  {
  }

  // ---------------------------------------------------------------- rotations by angle

  /** `M3.rotationMatrix(angle)`, angle in degrees. */
  function RotationMatrix(t: Trig, angle: real): seq<real>
  {
    Rotation3(t.Cos(t.Radians(angle)), t.Sin(t.Radians(angle)))
  }

  /** `M4.rotationMatrixX(angle)`, angle in degrees. */
  function RotationMatrixX(t: Trig, angle: real): seq<real>
  {
    RotationX4(t.Cos(t.Radians(angle)), t.Sin(t.Radians(angle)))
  }

  /** `M4.rotationMatrixY(angle)`, angle in degrees. */
  function RotationMatrixY(t: Trig, angle: real): seq<real>
  {
    RotationY4(t.Cos(t.Radians(angle)), t.Sin(t.Radians(angle)))
  }

  /** `M4.rotationMatrixZ(angle)`, angle in degrees. */
  function RotationMatrixZ(t: Trig, angle: real): seq<real>
  {
    RotationZ4(t.Cos(t.Radians(angle)), t.Sin(t.Radians(angle)))
  }

  // ---------------------------------------------------------------- objects

  /** An `M3` object: its nine entries, which `reset` overwrites in place. */
  class M3 {
    var entries: seq<real>

    predicate Valid()
      reads this
    {
      |entries| == 9
    }

    /** `new M3()`: all zeros. */
    constructor ()
      ensures Valid() && entries == seq(9, _ => 0.0)
    {
      entries := seq(9, _ => 0.0);
    }

    /** `new M3(data)`: the first nine values of data, copied one by one. */
    constructor Of(data: seq<real>)
      requires |data| >= 9
      ensures Valid() && entries == data[..9]
    {
      entries := seq(9, _ => 0.0);
      new;
      var i := 0;
      while i < 9
        invariant 0 <= i <= 9 && |entries| == 9
        invariant entries[..i] == data[..i]
      {
        entries := entries[i := data[i]];
        i := i + 1;
      }
    }

    /** `clone`: a new object with the same entries. */
    method Clone() returns (c: M3)
      requires Valid()
      ensures fresh(c) && c.Valid() && c.entries == entries
    {
      c := new M3.Of(entries);
    }

    /** `determinant()`: when it is nonzero, `invert` gives a right inverse of the entries. */
    function Determinant(): (r: real)
      reads this
      requires Valid()
      ensures r == Det3(entries)
      ensures r != 0.0 ==> Mult3(entries, Invert3(entries)) == Identity3
    {
      var d := Det3(entries);
      if d != 0.0 then Invert3Correct(entries); d else d
    }

    /** `reset`: entries 0 to 7 are set to 0, then 0, 4 and 8 to 1, which is the identity. */
    method Reset() returns (r: M3)
      requires Valid()
      modifies this
      ensures r == this && Valid() && entries == Identity3
    {
      var i := 0;
      while i < 8
        invariant 0 <= i <= 8 && |entries| == 9
        invariant forall k :: 0 <= k < i ==> entries[k] == 0.0
      {
        entries := entries[i := 0.0];
        i := i + 1;
      }
      entries := entries[0 := 1.0][4 := 1.0][8 := 1.0];
      return this;
    }
  }

  /** An `M4` object: its sixteen entries, which `reset` and `resetRotation` overwrite in place. */
  class M4 {
    var entries: seq<real>

    predicate Valid()
      reads this
    {
      |entries| == 16
    }

    /** `new M4()`: all zeros. */
    constructor ()
      ensures Valid() && entries == seq(16, _ => 0.0)
    {
      entries := seq(16, _ => 0.0);
    }

    /** `new M4(data)`: the first sixteen values of data, copied one by one. */
    constructor Of(data: seq<real>)
      requires |data| >= 16
      ensures Valid() && entries == data[..16]
      ensures |data| == 16 ==> entries == data
    {
      entries := seq(16, _ => 0.0);
      new;
      var i := 0;
      while i < 16
        invariant 0 <= i <= 16 && |entries| == 16
        invariant entries[..i] == data[..i]
      {
        entries := entries[i := data[i]];
        i := i + 1;
      }
    }

    /** `clone`: a new object with the same entries. */
    method Clone() returns (c: M4)
      requires Valid()
      ensures fresh(c) && c.Valid() && c.entries == entries
    {
      c := new M4.Of(entries);
    }

    /** `reset`: every entry whose index is a multiple of 5 becomes 1, every other 0. */
    method Reset() returns (r: M4)
      requires Valid()
      modifies this
      ensures r == this && Valid() && entries == Identity4
    {
      var i := 0;
      while i < |entries|
        invariant 0 <= i <= 16 && |entries| == 16
        invariant forall k :: 0 <= k < i ==> entries[k] == if k % 5 == 0 then 1.0 else 0.0
      {
        entries := entries[i := if i % 5 == 0 then 1.0 else 0.0];
        i := i + 1;
      }
      return this;
    }

    /**
     * `resetRotation`: entries 0 to 11 are set to 0, then 0, 5, 10 and 15 to 1.  The
     * translation (entries 12 to 14) is kept, so the result is the translation matrix of it.
     */
    method ResetRotation() returns (r: M4)
      requires Valid()
      modifies this
      ensures r == this && Valid() && entries == Translation4(old(entries[12]), old(entries[13]), old(entries[14]))
    {
      var i := 0;
      while i < 12
        invariant 0 <= i <= 12 && |entries| == 16
        invariant forall k :: 0 <= k < i ==> entries[k] == 0.0
        invariant entries[12..] == old(entries[12..])
      {
        entries := entries[i := 0.0];
        i := i + 1;
      }
      entries := entries[0 := 1.0][5 := 1.0][10 := 1.0][15 := 1.0];
      return this;
    }
  }
}
