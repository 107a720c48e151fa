/**
 * The fixed-shape matrices `SquareMat` builds from scratch in matrix.js: the transpose,
 * diagonal scale matrices, translations, the identity-padded matrix and axis-plane
 * rotations, each given by its entry function, with their defining properties.
 */
module Shapes {
  import opened Sums
  import opened Layout

  function TransposeF(a: seq<real>, n: nat): (int, int) -> real
  {
    (i, j) => Get(a, n, j, i)
  }

  /** The transpose of an n x n matrix. */
  function Transpose(a: seq<real>, n: nat): (r: seq<real>)
    ensures |r| == n * n
  {
    Build(n, n, TransposeF(a, n))
  }

  /** Entry (i, j) of the transpose is entry (j, i) of the matrix. */
  lemma TransposeGet(a: seq<real>, n: nat)
    ensures forall i, j :: 0 <= i < n && 0 <= j < n ==> Get(Transpose(a, n), n, i, j) == Get(a, n, j, i)
  {
    BuildGet(n, n, TransposeF(a, n));
  }

  /** Transposing twice gives back the matrix. */
  lemma TransposeInvolution(a: seq<real>, n: nat)
    requires |a| == n * n
    ensures Transpose(Transpose(a, n), n) == a
  {
    TransposeGet(a, n);
    TransposeGet(Transpose(a, n), n);
    Ext(Transpose(Transpose(a, n), n), a, n, n);
  }

  function DiagonalF(v: seq<real>): (int, int) -> real
  {
    (i, j) => if i == j && 0 <= i < |v| then v[i] else 0.0
  }

  /** The |v| x |v| diagonal matrix with diagonal v. */
  function Diagonal(v: seq<real>): (r: seq<real>)
    ensures |r| == |v| * |v|
  {
    Build(|v|, |v|, DiagonalF(v))
  }

  /** The scale matrix has v[i] at (i, i) and 0 everywhere off the diagonal. */
  lemma DiagonalGet(v: seq<real>)
    ensures forall i, j :: 0 <= i < |v| && 0 <= j < |v| ==> Get(Diagonal(v), |v|, i, j) == if i == j then v[i] else 0.0
  {
    BuildGet(|v|, |v|, DiagonalF(v));
  }

  function TranslationF(d: seq<real>): (int, int) -> real
  {
    (i, j) => if j < |d| then (if i == j then 1.0 else 0.0) else if 0 <= i < |d| then d[i] else 1.0
  }

  /** The (|d|+1) x (|d|+1) translation by d: the identity with last column [d..., 1]. */
  function Translation(d: seq<real>): (r: seq<real>)
    ensures |r| == (|d| + 1) * (|d| + 1)
  {
    Build(|d| + 1, |d| + 1, TranslationF(d))
  }

  lemma TranslationGet(d: seq<real>)
    ensures var t := |d| + 1;
      forall i, j :: 0 <= i < t && 0 <= j < t ==>
        Get(Translation(d), t, i, j) == (if j < |d| then (if i == j then 1.0 else 0.0) else if i < |d| then d[i] else 1.0)
  {
    BuildGet(|d| + 1, |d| + 1, TranslationF(d));
  }

  /** Multiplying the translation by the homogeneous point [v..., 1] adds d to v. */
  lemma {:induction false} TranslationMoves(d: seq<real>, v: seq<real>)
    requires |v| == |d|
    ensures var t := |d| + 1;
      forall i :: 0 <= i < |d| ==> Get(MatMul(Translation(d), v + [1.0], t, t, 1), t, i, 0) == v[i] + d[i]
  {
    var t := |d| + 1;
    var T := Translation(d);
    var w := v + [1.0];
    TranslationGet(d);
    forall i | 0 <= i < |d| ensures Get(MatMul(T, w, t, t, 1), t, i, 0) == v[i] + d[i] {
      MatMulGet(T, w, t, t, 1, i, 0);
      var f := Term(T, w, t, t, i, 0);
      forall k | 0 <= k < t ensures f(k) == if k == i then v[i] else if k == |d| then d[i] else 0.0 {
        TermAt(T, w, t, t, i, 0, k);
        assert Get(w, t, k, 0) == w[k];
      }
      SumTwo(t, f, i, |d|);
    }
  }

  function PaddedF(a: seq<real>, n: nat): (int, int) -> real
  {
    (i, j) => if i < n && j < n then Get(a, n, i, j) else if i == n && j == n then 1.0 else 0.0
  }

  /** The n x n matrix a bordered by the last row and column of the (n+1) x (n+1) identity. */
  function Padded(a: seq<real>, n: nat): (r: seq<real>)
    ensures |r| == (n + 1) * (n + 1)
  {
    Build(n + 1, n + 1, PaddedF(a, n))
  }

  lemma PaddedGet(a: seq<real>, n: nat)
    ensures forall i, j :: 0 <= i < n + 1 && 0 <= j < n + 1 ==>
      Get(Padded(a, n), n + 1, i, j) == (if i < n && j < n then Get(a, n, i, j) else if i == n && j == n then 1.0 else 0.0)
  {
    BuildGet(n + 1, n + 1, PaddedF(a, n));
    assert Padded(a, n) == Build(n + 1, n + 1, PaddedF(a, n));
  }

  /**
   * The entry `rot` pushes at row i, column j: cos on the two diagonal places of axes a and
   * b, -sin at (a, b), sin at (b, a), and the identity elsewhere.
   */
  function RotEntry(a: int, b: int, c: real, s: real, i: int, j: int): real
  {
    if (i == a && j == a) || (i == b && j == b) then c
    else if i == a && j == b then -s
    else if i == b && j == a then s
    else if i == j then 1.0
    else 0.0
  }

  function RotF(a: int, b: int, c: real, s: real): (int, int) -> real
  {
    (i, j) => RotEntry(a, b, c, s, i, j)
  }

  /** The n x n rotation from axis a towards axis b with cosine c and sine s. */
  function Rotation(n: nat, a: int, b: int, c: real, s: real): (r: seq<real>)
    ensures |r| == n * n
  {
    Build(n, n, RotF(a, b, c, s))
  }

  lemma RotationGet(n: nat, a: int, b: int, c: real, s: real)
    ensures forall i, j :: 0 <= i < n && 0 <= j < n ==> Get(Rotation(n, a, b, c, s), n, i, j) == RotEntry(a, b, c, s, i, j)
  {
    BuildGet(n, n, RotF(a, b, c, s));
  }

  /** Column i of a rotation has its nonzero entries in rows a and b, or only in row i. */
  lemma RotColumn(a: int, b: int, c: real, s: real, i: int, k: int)
    requires a != b
    ensures i != a && i != b ==> RotEntry(a, b, c, s, k, i) == if k == i then 1.0 else 0.0
    ensures i == a ==> RotEntry(a, b, c, s, k, i) == if k == a then c else if k == b then s else 0.0
    ensures i == b ==> RotEntry(a, b, c, s, k, i) == if k == a then -s else if k == b then c else 0.0
  {
  }

  /** Row k of the product of columns i and j of a rotation. */
  function ColumnProduct(a: int, b: int, c: real, s: real, i: int, j: int): int -> real
  {
    k => RotEntry(a, b, c, s, k, i) * RotEntry(a, b, c, s, k, j)
  }

  /** Columns i and j of a rotation, one of them off both axes. */
  lemma {:induction false} RotDotOff(n: nat, a: int, b: int, c: real, s: real, i: int, j: int)
    requires 0 <= a < n && 0 <= b < n && a != b
    requires 0 <= i < n && 0 <= j < n && ((i != a && i != b) || (j != a && j != b))
    ensures Sum(n, ColumnProduct(a, b, c, s, i, j)) == if i == j then 1.0 else 0.0
  {
    var f := ColumnProduct(a, b, c, s, i, j);
    if i != a && i != b {
      forall k | 0 <= k < n && k != i ensures f(k) == 0.0 {
        RotColumn(a, b, c, s, i, k);
      }
      SumSingle(n, f, i);
      RotColumn(a, b, c, s, i, i);
      RotColumn(a, b, c, s, j, i);
    } else {
      forall k | 0 <= k < n && k != j ensures f(k) == 0.0 {
        RotColumn(a, b, c, s, j, k);
      }
      SumSingle(n, f, j);
      RotColumn(a, b, c, s, j, j);
      RotColumn(a, b, c, s, i, j);
    }
  }

  /** Columns i and j of a rotation, both on the axes a and b: their terms vanish off the axes. */
  lemma {:induction false} RotDotAxes(n: nat, a: int, b: int, c: real, s: real, i: int, j: int)
    requires 0 <= a < n && 0 <= b < n && a != b && c * c + s * s == 1.0
    requires (i == a || i == b) && (j == a || j == b)
    ensures Sum(n, ColumnProduct(a, b, c, s, i, j)) == if i == j then 1.0 else 0.0
  {
    var f := ColumnProduct(a, b, c, s, i, j);
    forall k | 0 <= k < n && k != a && k != b ensures f(k) == 0.0 {
      RotColumn(a, b, c, s, i, k);
    }
    SumTwo(n, f, a, b);
    RotAxesTerms(a, b, c, s, i, j);
  }

  /** The two axis terms of columns i and j of a rotation add up to the identity entry. */
  lemma RotAxesTerms(a: int, b: int, c: real, s: real, i: int, j: int)
    requires a != b && c * c + s * s == 1.0
    requires (i == a || i == b) && (j == a || j == b)
    ensures ColumnProduct(a, b, c, s, i, j)(a) + ColumnProduct(a, b, c, s, i, j)(b) == if i == j then 1.0 else 0.0
  {
    if i == a && j == a {
      assert ColumnProduct(a, b, c, s, i, j)(a) == c * c;
    } else if i == b && j == b {
      assert ColumnProduct(a, b, c, s, i, j)(b) == c * c;
    }
  }

  lemma TransposeAt(a: seq<real>, n: nat, i: int, j: int)
    requires 0 <= i < n && 0 <= j < n
    ensures Get(Transpose(a, n), n, i, j) == Get(a, n, j, i)
  {
    TransposeGet(a, n);
  }

  lemma RotationAt(n: nat, a: int, b: int, c: real, s: real, i: int, j: int)
    requires 0 <= i < n && 0 <= j < n
    ensures Get(Rotation(n, a, b, c, s), n, i, j) == RotEntry(a, b, c, s, i, j)
  {
    RotationGet(n, a, b, c, s);
  }

  /** Term k of column i times column j of a rotation, read through the transpose. */
  lemma RotTerm(n: nat, a: int, b: int, c: real, s: real, i: int, j: int, k: int)
    requires 0 <= i < n && 0 <= j < n && 0 <= k < n
    ensures Term(Transpose(Rotation(n, a, b, c, s), n), Rotation(n, a, b, c, s), n, n, i, j)(k) == ColumnProduct(a, b, c, s, i, j)(k)
  {
    var R := Rotation(n, a, b, c, s);
    var T := Transpose(R, n);
    TermAt(T, R, n, n, i, j, k);
    TransposeAt(R, n, i, k);
    RotationAt(n, a, b, c, s, k, i);
    RotationAt(n, a, b, c, s, k, j);
  }

  /** With cos^2 + sin^2 = 1 and two distinct axes in range, the rotation is orthogonal: R^T R = I. */
  lemma {:induction false} RotationOrthogonal(n: nat, a: int, b: int, c: real, s: real)
    requires 0 <= a < n && 0 <= b < n && a != b && c * c + s * s == 1.0
    ensures MatMul(Transpose(Rotation(n, a, b, c, s), n), Rotation(n, a, b, c, s), n, n, n) == Identity(n)
  {
    var R := Rotation(n, a, b, c, s);
    var T := Transpose(R, n);
    IdentityGet(n);
    forall i, j | 0 <= i < n && 0 <= j < n ensures Get(MatMul(T, R, n, n, n), n, i, j) == Get(Identity(n), n, i, j) {
      MatMulGet(T, R, n, n, n, i, j);
      forall k | 0 <= k < n ensures Term(T, R, n, n, i, j)(k) == ColumnProduct(a, b, c, s, i, j)(k) {
        RotTerm(n, a, b, c, s, i, j, k);
      }
      SumExt(n, Term(T, R, n, n, i, j), ColumnProduct(a, b, c, s, i, j));
      if (i == a || i == b) && (j == a || j == b) {
        RotDotAxes(n, a, b, c, s, i, j);
      } else {
        RotDotOff(n, a, b, c, s, i, j);
      }
    }
    Ext(MatMul(T, R, n, n, n), Identity(n), n, n);
  }

  /** The last column of a translation is d followed by 1. */
  lemma TranslationColumn(d: seq<real>)
    ensures Column(|d| + 1, |d|, TranslationF(d)) == d + [1.0]
  {
    var col := Column(|d| + 1, |d|, TranslationF(d));
    forall i | 0 <= i < |d| + 1 ensures col[i] == (d + [1.0])[i] {
    }
  }

  /** A translation is its first |d| columns followed by d and 1. */
  lemma TranslationLastColumn(d: seq<real>)
    ensures Build(|d| + 1, |d| + 1, TranslationF(d)) == Build(|d| + 1, |d|, TranslationF(d)) + (d + [1.0])
  {
    TranslationColumn(d);
  }

  /**
   * Position i = r + (n+1)*c of the (n+1) x (n+1) buffer `padded` fills: the test
   * `(i + 1) % (n + 1) == 0` picks the last row and `i >= n*(n+1)` the last column.
   */
  lemma PaddedIndex(n: nat, r: nat, c: nat)
    requires r <= n && c <= n
    ensures (r + (n + 1) * c + 1) % (n + 1) == 0 <==> r == n
    ensures r + (n + 1) * c >= n * (n + 1) <==> c == n
    ensures r + (n + 1) * c == (n + 1) * (n + 1) - 1 <==> r == n && c == n
  {
    if r < n {
      IndexSplit(n + 1, r + 1, c);
    } else {
      assert r + (n + 1) * c + 1 == 0 + (n + 1) * (c + 1);
      IndexSplit(n + 1, 0, c + 1);
    }
    if c < n {
      MulMono(n + 1, c, n - 1);
      assert (n + 1) * (n - 1) == n * (n + 1) - n - 1;
    }
    assert (n + 1) * (n + 1) == n * (n + 1) + n + 1;
  }

  /** An n x n matrix from three columns, spelled out: Build(3, 3, f) in column-major order. */
  lemma Build3(f: (int, int) -> real)
    ensures Build(3, 3, f) == [f(0, 0), f(1, 0), f(2, 0), f(0, 1), f(1, 1), f(2, 1), f(0, 2), f(1, 2), f(2, 2)]
  {
    assert Column(3, 0, f) == [f(0, 0), f(1, 0), f(2, 0)];
    assert Column(3, 1, f) == [f(0, 1), f(1, 1), f(2, 1)];
    assert Column(3, 2, f) == [f(0, 2), f(1, 2), f(2, 2)];
    assert Build(3, 1, f) == Column(3, 0, f);
  }

  /** A 4 x 4 matrix spelled out: Build(4, 4, f) in column-major order. */
  lemma Build4(f: (int, int) -> real)
    ensures Build(4, 4, f) == [f(0, 0), f(1, 0), f(2, 0), f(3, 0), f(0, 1), f(1, 1), f(2, 1), f(3, 1),
                               f(0, 2), f(1, 2), f(2, 2), f(3, 2), f(0, 3), f(1, 3), f(2, 3), f(3, 3)]
  {
    assert Column(4, 0, f) == [f(0, 0), f(1, 0), f(2, 0), f(3, 0)];
    assert Column(4, 1, f) == [f(0, 1), f(1, 1), f(2, 1), f(3, 1)];
    assert Column(4, 2, f) == [f(0, 2), f(1, 2), f(2, 2), f(3, 2)];
    assert Column(4, 3, f) == [f(0, 3), f(1, 3), f(2, 3), f(3, 3)];
    assert Build(4, 1, f) == Column(4, 0, f);
  }

  /** The three rotations `SquareMat3` offers, entry by entry. */
  lemma Rotations3(c: real, s: real)
    ensures Rotation(3, 1, 2, c, s) == [1.0, 0.0, 0.0, 0.0, c, s, 0.0, -s, c]
    ensures Rotation(3, 2, 0, c, s) == [c, 0.0, -s, 0.0, 1.0, 0.0, s, 0.0, c]
    ensures Rotation(3, 0, 1, c, s) == [c, s, 0.0, -s, c, 0.0, 0.0, 0.0, 1.0]
  {
    Build3(RotF(1, 2, c, s));
    Build3(RotF(2, 0, c, s));
    Build3(RotF(0, 1, c, s));
  }

  /** The bounds test of `rot` as written: it compares n with itself and never bounds b from above. */
  predicate RotRejectsAsWritten(n: int, a: int, b: int)
  {
    a > n || n > n || a < 0 || b < 0
  }

  /** The bounds test `rot` evidently intends: both axes are among 0..n-1. */
  predicate RotRejects(n: int, a: int, b: int)
  {
    a < 0 || a >= n || b < 0 || b >= n
  }

  /**
   * The test as written lets through axis b = 5 of a 3 x 3 rotation; with cos = 0 and
   * sin = 1 the matrix built has a zero first column, so R^T R is not the identity.
   */
  lemma RotOutOfRangeNotOrthogonal()
    ensures !RotRejectsAsWritten(3, 0, 5) && RotRejects(3, 0, 5)
    ensures var R := Rotation(3, 0, 5, 0.0, 1.0);
      Get(MatMul(Transpose(R, 3), R, 3, 3, 3), 3, 0, 0) == 0.0 && Get(Identity(3), 3, 0, 0) == 1.0
  {
    var R := Rotation(3, 0, 5, 0.0, 1.0);
    MatMulGet(Transpose(R, 3), R, 3, 3, 3, 0, 0);
    forall k | 0 <= k < 3 ensures Term(Transpose(R, 3), R, 3, 3, 0, 0)(k) == 0.0 {
      RotTerm(3, 0, 5, 0.0, 1.0, 0, 0, k);
    }
    SumZero(3, Term(Transpose(R, 3), R, 3, 3, 0, 0));
    IdentityGet(3);
  }
}
