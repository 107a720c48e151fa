/**
 * The determinant `det` computes: the scale factor `ref` returns times the product of the
 * diagonal of the row echelon form it leaves behind.
 */
module Determinant {
  import opened Sums
  import opened Layout
  import opened Reduce
  import opened Echelon
  import opened RowOps
  import opened Cofactors
  import FixedMatrices

  /** The product of the first i diagonal entries of an n x n buffer, taken in order. */
  function DiagProd(a: seq<real>, n: nat, i: nat): real
  {
    if i == 0 then 1.0 else Times(DiagProd(a, n, i - 1), Get(a, n, i - 1, i - 1))
  }

  /**
   * The loop of `det`: the running value d multiplied by the diagonal entries of a from
   * row i on, left to right.
   */
  function RunningDet(a: seq<real>, n: nat, i: nat, d: real): real
    decreases n - i
  {
    if i >= n then d else RunningDet(a, n, i + 1, Times(d, Get(a, n, i, i)))
  }

  /** The value `det` returns for the n x n matrix a. */
  function DetOf(a: seq<real>, n: nat): real
    requires |a| == n * n
  {
    RunningDet(Ref(a, n, n).mat, n, 0, Ref(a, n, n).scale)
  }

  /** Started from s times the first i diagonal entries, the loop ends on s times all of them. */
  lemma {:induction false} RunningDetProd(a: seq<real>, n: nat, i: nat, s: real)
    requires i <= n
    decreases n - i
    ensures RunningDet(a, n, i, Times(s, DiagProd(a, n, i))) == Times(s, DiagProd(a, n, n))
  {
    if i < n {
      var x := Get(a, n, i, i);
      var p := DiagProd(a, n, i);
      assert Times(Times(s, p), x) == Times(s, Times(p, x));
      RunningDetProd(a, n, i + 1, s);
    }
  }

  /**
   * The determinant is plus or minus the product of the diagonal of an upper triangular
   * matrix, the one `ref` reduces a to; the sign is (-1) to the number of row exchanges.
   */
  lemma DetTriangular(a: seq<real>, n: nat)
    requires |a| == n * n
    ensures var R := Ref(a, n, n);
      DetOf(a, n) == NegPow(R.swaps) * DiagProd(R.mat, n, n) &&
      (DetOf(a, n) == DiagProd(R.mat, n, n) || DetOf(a, n) == -DiagProd(R.mat, n, n)) &&
      (forall i, j :: 0 <= j < i < n ==> Get(R.mat, n, i, j) == 0.0)
  {
    var R := Ref(a, n, n);
    RunningDetProd(R.mat, n, 0, R.scale);
    RefScale(a, n, n);
    RefShape(a, n, n);
  }

  // ------------------------------------------------ the 3 x 3 case

  /** The expansion of the 3 x 3 buffer a, read through `Get`. */
  function Cofactor3(a: seq<real>): real
  {
    Expansion3(Get(a, 3, 0, 0), Get(a, 3, 0, 1), Get(a, 3, 0, 2),
               Get(a, 3, 1, 0), Get(a, 3, 1, 1), Get(a, 3, 1, 2),
               Get(a, 3, 2, 0), Get(a, 3, 2, 1), Get(a, 3, 2, 2))
  }

  /** Exchanging two rows negates the expansion. */
  lemma ExpansionSwaps(a: real, b: real, c: real, d: real, e: real, f: real, g: real, h: real, i: real)
    ensures Expansion3(d, e, f, a, b, c, g, h, i) == -Expansion3(a, b, c, d, e, f, g, h, i)
    ensures Expansion3(g, h, i, d, e, f, a, b, c) == -Expansion3(a, b, c, d, e, f, g, h, i)
    ensures Expansion3(a, b, c, g, h, i, d, e, f) == -Expansion3(a, b, c, d, e, f, g, h, i)
  {
  }

  /** Subtracting x and y times the first row from the second and third keeps the expansion. */
  lemma ExpansionEliminatesFirst(a: real, b: real, c: real, d: real, e: real, f: real, g: real, h: real, i: real,
                                 d': real, e': real, f': real, g': real, h': real, i': real, x: real, y: real)
    requires d' == d - a * x && e' == e - b * x && f' == f - c * x
    requires g' == g - a * y && h' == h - b * y && i' == i - c * y
    ensures Expansion3(a, b, c, d', e', f', g', h', i') == Expansion3(a, b, c, d, e, f, g, h, i)
  {
  }

  /** Subtracting y times the second row from the third keeps the expansion. */
  lemma ExpansionEliminatesSecond(a: real, b: real, c: real, d: real, e: real, f: real, g: real, h: real, i: real,
                                  g': real, h': real, i': real, y: real)
    requires g' == g - d * y && h' == h - e * y && i' == i - f * y
    ensures Expansion3(a, b, c, d, e, f, g', h', i') == Expansion3(a, b, c, d, e, f, g, h, i)
  {
  }

  /** Row i of b is row i of a less f times row h, in every column. */
  predicate RowLessened(b: seq<real>, a: seq<real>, h: int, i: int, f: real)
  {
    forall j :: 0 <= j < 3 ==> Get(b, 3, i, j) == Get(a, 3, i, j) - Get(a, 3, h, j) * f
  }

  /** Row i of b is row i of a. */
  predicate RowKept(b: seq<real>, a: seq<real>, i: int)
  {
    forall j :: 0 <= j < 3 ==> Get(b, 3, i, j) == Get(a, 3, i, j)
  }

  /** Clearing the first column keeps the expansion. */
  lemma EliminatedFirst(b: seq<real>, a: seq<real>, x: real, y: real)
    requires RowKept(b, a, 0) && RowLessened(b, a, 0, 1, x) && RowLessened(b, a, 0, 2, y)
    ensures Cofactor3(b) == Cofactor3(a)
  {
    ExpansionEliminatesFirst(Get(a, 3, 0, 0), Get(a, 3, 0, 1), Get(a, 3, 0, 2),
                             Get(a, 3, 1, 0), Get(a, 3, 1, 1), Get(a, 3, 1, 2),
                             Get(a, 3, 2, 0), Get(a, 3, 2, 1), Get(a, 3, 2, 2),
                             Get(b, 3, 1, 0), Get(b, 3, 1, 1), Get(b, 3, 1, 2),
                             Get(b, 3, 2, 0), Get(b, 3, 2, 1), Get(b, 3, 2, 2), x, y);
  }

  /** Clearing below the second pivot keeps the expansion. */
  lemma EliminatedSecond(b: seq<real>, a: seq<real>, y: real)
    requires RowKept(b, a, 0) && RowKept(b, a, 1) && RowLessened(b, a, 1, 2, y)
    ensures Cofactor3(b) == Cofactor3(a)
  {
    ExpansionEliminatesSecond(Get(a, 3, 0, 0), Get(a, 3, 0, 1), Get(a, 3, 0, 2),
                              Get(a, 3, 1, 0), Get(a, 3, 1, 1), Get(a, 3, 1, 2),
                              Get(a, 3, 2, 0), Get(a, 3, 2, 1), Get(a, 3, 2, 2),
                              Get(b, 3, 2, 0), Get(b, 3, 2, 1), Get(b, 3, 2, 2), y);
  }

  /** The row exchange of a `ref` step negates the expansion, when it happens. */
  lemma ExchangeCofactor3(a: seq<real>, h: int, r: int)
    requires |a| == 9 && 0 <= h <= r < 3
    ensures Cofactor3(Exchange(a, 3, 3, h, r)) == if r != h then -Cofactor3(a) else Cofactor3(a)
  {
    ExchangeGet(a, 3, 3, h, r);
    ExpansionSwaps(Get(a, 3, 0, 0), Get(a, 3, 0, 1), Get(a, 3, 0, 2),
                   Get(a, 3, 1, 0), Get(a, 3, 1, 1), Get(a, 3, 1, 2),
                   Get(a, 3, 2, 0), Get(a, 3, 2, 1), Get(a, 3, 2, 2));
  }

  /** Entry (i, j) of the elimination of a `ref` step: rows below h lose a multiple of row h in every column. */
  lemma ClearedEntry3(a: seq<real>, h: int, k: int, i: int, j: int)
    requires |a| == 9 && 0 <= h < 2 && 0 <= k < 3 && Get(a, 3, h, k) != 0.0
    requires forall i, j :: h <= i < 3 && 0 <= j < k ==> Get(a, 3, i, j) == 0.0
    requires 0 <= i < 3 && 0 <= j < 3
    ensures Cleared(a, 3, h, k, h + 1, 3, i, j) ==
      if h < i then Get(a, 3, i, j) - Get(a, 3, h, j) * Factor(a, 3, h, k, i) else Get(a, 3, i, j)
  {
    if h < i && j < k {
      assert Get(a, 3, i, j) == 0.0 && Get(a, 3, h, j) == 0.0;
    }
  }

  /** The rows down to h are kept by the elimination of a `ref` step. */
  lemma EliminateKeeps3(a: seq<real>, h: int, k: int, i: int)
    requires |a| == 9 && 0 <= h < 2 && 0 <= k < 3 && Get(a, 3, h, k) != 0.0
    requires forall i, j :: h <= i < 3 && 0 <= j < k ==> Get(a, 3, i, j) == 0.0
    requires 0 <= i <= h
    ensures RowKept(Eliminate(a, 3, 3, h, k, h + 1, 3), a, i)
  {
    EliminateGet(a, 3, 3, h, k, h + 1, 3);
    forall j | 0 <= j < 3 ensures Get(Eliminate(a, 3, 3, h, k, h + 1, 3), 3, i, j) == Get(a, 3, i, j) {
      ClearedEntry3(a, h, k, i, j);
    }
  }

  /** A row below h loses its factor times row h in the elimination of a `ref` step. */
  lemma EliminateLessens3(a: seq<real>, h: int, k: int, i: int)
    requires |a| == 9 && 0 <= h < 2 && 0 <= k < 3 && Get(a, 3, h, k) != 0.0
    requires forall i, j :: h <= i < 3 && 0 <= j < k ==> Get(a, 3, i, j) == 0.0
    requires h < i < 3
    ensures RowLessened(Eliminate(a, 3, 3, h, k, h + 1, 3), a, h, i, Factor(a, 3, h, k, i))
  {
    EliminateGet(a, 3, 3, h, k, h + 1, 3);
    forall j | 0 <= j < 3
      ensures Get(Eliminate(a, 3, 3, h, k, h + 1, 3), 3, i, j) == Get(a, 3, i, j) - Get(a, 3, h, j) * Factor(a, 3, h, k, i)
    {
      ClearedEntry3(a, h, k, i, j);
    }
  }

  /**
   * The elimination of a `ref` step keeps the expansion: with the rows from h on zero left
   * of column k, clearing the columns from k on subtracts whole multiples of row h.
   */
  lemma EliminateCofactor3(a: seq<real>, h: int, k: int)
    requires |a| == 9 && 0 <= h < 2 && 0 <= k < 3 && Get(a, 3, h, k) != 0.0
    requires forall i, j :: h <= i < 3 && 0 <= j < k ==> Get(a, 3, i, j) == 0.0
    ensures Cofactor3(Eliminate(a, 3, 3, h, k, h + 1, 3)) == Cofactor3(a)
  {
    var b := Eliminate(a, 3, 3, h, k, h + 1, 3);
    EliminateKeeps3(a, h, k, 0);
    EliminateLessens3(a, h, k, 2);
    if h == 0 {
      EliminateLessens3(a, h, k, 1);
      EliminatedFirst(b, a, Factor(a, 3, h, k, 1), Factor(a, 3, h, k, 2));
    } else {
      EliminateKeeps3(a, h, k, 1);
      EliminatedSecond(b, a, Factor(a, 3, h, k, 2));
    }
  }

  /** One pivoting step of `ref` on a 3 x 3 matrix negates the expansion exactly when it exchanges rows. */
  lemma RefStepCofactor3(a: seq<real>, h: nat, k: nat, r: int, piv: seq<int>)
    requires RefUpTo(a, 3, 3, h, k, piv) && h < 2 && k < 3 && h <= r < 3 && Get(a, 3, r, k) != 0.0
    ensures Cofactor3(RefStep(a, 3, 3, h, k, r)) == if r != h then -Cofactor3(a) else Cofactor3(a)
  {
    var a1 := Exchange(a, 3, 3, h, r);
    ExchangeGet(a, 3, 3, h, r);
    ExchangeCofactor3(a, h, r);
    assert Get(a1, 3, h, k) == Get(a, 3, r, k);
    forall i, j | h <= i < 3 && 0 <= j < k ensures Get(a1, 3, i, j) == 0.0 {
    }
    EliminateCofactor3(a1, h, k);
  }

  /** One pivoting step of `ref` on a 3 x 3 matrix keeps the scale times the expansion. */
  lemma RefStepScaled3(a: seq<real>, h: nat, k: nat, r: int, piv: seq<int>, ds: real)
    requires RefUpTo(a, 3, 3, h, k, piv) && h < 2 && k < 3 && h <= r < 3 && Get(a, 3, r, k) != 0.0
    ensures Times(if r != h then ds * -1.0 else ds, Cofactor3(RefStep(a, 3, 3, h, k, r))) == Times(ds, Cofactor3(a))
  {
    RefStepCofactor3(a, h, k, r, piv);
    SignsCancel(ds, Cofactor3(a), r != h);
  }

  /** Through the rest of a `ref` run on a 3 x 3 matrix, the scale times the expansion stays put. */
  lemma {:induction false} RefLoopCofactor3(a: seq<real>, h: nat, k: nat, ds: real, sw: nat, piv: seq<int>, vals: seq<real>)
    requires RefUpTo(a, 3, 3, h, k, piv)
    decreases 3 - k
    ensures var R := RefLoop(a, 3, 3, h, k, ds, sw, piv, vals);
      Times(R.scale, Cofactor3(R.mat)) == Times(ds, Cofactor3(a))
  {
    if h < 2 && k < 3 {
      var r := PivotRow(a, 3, k, h);
      if Get(a, 3, r, k) == 0.0 {
        RefSkip(a, 3, 3, h, k, piv);
        RefSkipUnfold(a, 3, 3, h, k, ds, sw, piv, vals);
        RefLoopCofactor3(a, h, k + 1, ds, sw, piv, vals);
      } else {
        var a1 := RefStep(a, 3, 3, h, k, r);
        var ds1 := if r != h then ds * -1.0 else ds;
        var sw1 := if r != h then sw + 1 else sw;
        RefStepShape(a, 3, 3, h, k, piv, r);
        RefStepUnfold(a, 3, 3, h, k, ds, sw, piv, vals);
        RefLoopCofactor3(a1, h + 1, k + 1, ds1, sw1, piv + [k], vals + [Get(a, 3, r, k)]);
        RefStepScaled3(a, h, k, r, piv, ds);
      }
    }
  }

  /** Negating both the scale and the value keeps their product. */
  lemma SignsCancel(ds: real, c: real, neg: bool)
    ensures Times(if neg then ds * -1.0 else ds, if neg then -c else c) == Times(ds, c)
  {
  }

  /** The expansion of an upper triangular 3 x 3 matrix is the product of its diagonal. */
  lemma TriangularCofactor3(b: seq<real>)
    requires Get(b, 3, 1, 0) == 0.0 && Get(b, 3, 2, 0) == 0.0 && Get(b, 3, 2, 1) == 0.0
    ensures Cofactor3(b) == DiagProd(b, 3, 3)
  {
    var x, y, z := Get(b, 3, 0, 0), Get(b, 3, 1, 1), Get(b, 3, 2, 2);
    assert DiagProd(b, 3, 1) == Times(1.0, x);
    assert DiagProd(b, 3, 2) == Times(DiagProd(b, 3, 1), y);
    assert DiagProd(b, 3, 3) == Times(DiagProd(b, 3, 2), z);
    assert Cofactor3(b) == x * (y * z - Get(b, 3, 1, 2) * 0.0) - Get(b, 3, 0, 1) * (0.0 * z - Get(b, 3, 1, 2) * 0.0) + Get(b, 3, 0, 2) * (0.0 * 0.0 - y * 0.0);
  }

  /** `det` of a 3 x 3 matrix is its expansion along the first row. */
  lemma DetOf3(a: seq<real>)
    requires |a| == 9
    ensures DetOf(a, 3) == Cofactor3(a)
  {
    var R := Ref(a, 3, 3);
    var s := R.scale;
    RefLoopCofactor3(a, 0, 0, 1.0, 0, [], []);
    assert Times(s, Cofactor3(R.mat)) == Times(1.0, Cofactor3(a));
    assert DiagProd(R.mat, 3, 0) == 1.0 && Times(s, 1.0) == s;
    RunningDetProd(R.mat, 3, 0, s);
    assert DetOf(a, 3) == Times(s, DiagProd(R.mat, 3, 3));
    RefShape(a, 3, 3);
    TriangularCofactor3(R.mat);
  }

  /** The expansion along the first row of a 3 x 3 buffer is `M3.determinant` of it. */
  lemma Cofactor3IsDet3(a: seq<real>)
    requires |a| == 9
    ensures Cofactor3(a) == FixedMatrices.Det3(a)
  {
    assert Get(a, 3, 0, 0) == a[0] && Get(a, 3, 0, 1) == a[3] && Get(a, 3, 0, 2) == a[6];
    assert Get(a, 3, 1, 0) == a[1] && Get(a, 3, 1, 1) == a[4] && Get(a, 3, 1, 2) == a[7];
    assert Get(a, 3, 2, 0) == a[2] && Get(a, 3, 2, 1) == a[5] && Get(a, 3, 2, 2) == a[8];
  }

  /** `det` of matrix.js and `M3.determinant` of math.js agree on every 3 x 3 matrix. */
  lemma DetOfIsDet3(a: seq<real>)
    requires |a| == 9
    ensures DetOf(a, 3) == FixedMatrices.Det3(a)
  {
    DetOf3(a);
    Cofactor3IsDet3(a);
  }
}
