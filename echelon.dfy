/**
 * The shapes `rref` and `ref` leave behind and the determinant scale factor they return.
 */
module Echelon {
  import opened Layout
  import opened RowOps
  import opened Reduce

  /** (-1)^n */
  function NegPow(n: nat): real
  {
    if n == 0 then 1.0 else -NegPow(n - 1)
  }

  /** The product of a sequence of reals, taken left to right. */
  function Prod(s: seq<real>): real
  {
    if |s| == 0 then 1.0 else Prod(s[..|s| - 1]) * s[|s| - 1]
  }

  predicate NonZero(s: seq<real>)
  {
    forall t :: 0 <= t < |s| ==> s[t] != 0.0
  }

  lemma ProdNonZero(s: seq<real>)
    requires NonZero(s)
    ensures Prod(s) != 0.0
  {
    if |s| > 0 {
      ProdNonZero(s[..|s| - 1]);
    }
  }

  /** Dividing by a pivot and recording it in the product leaves scale * product unchanged. */
  lemma ScaleStep(ds: real, sign: real, q: real, p: real)
    requires p != 0.0
    ensures (ds * sign / p) * (q * p) == sign * (ds * q)
  {
    assert (ds * sign / p) * p == ds * sign;
  }

  /**
   * Reduced row echelon form of the first k columns with pivot columns piv for rows
   * 0..h-1: pivot columns increase, pivot column of row t is the unit vector e_t, row t is
   * zero left of its pivot, and rows h.. are zero in the first k columns.
   */
  predicate RrefUpTo(a: seq<real>, m: nat, n: nat, h: nat, k: nat, piv: seq<int>)
  {
    |a| == m * n && h <= m && h <= k <= n && |piv| == h &&
    (forall t :: 0 <= t < h ==> t <= piv[t] < k) &&
    (forall s, t :: 0 <= s < t < h ==> piv[s] < piv[t]) &&
    (forall t, i :: 0 <= t < h && 0 <= i < m ==> Get(a, m, i, piv[t]) == if i == t then 1.0 else 0.0) &&
    (forall t, j :: 0 <= t < h && 0 <= j < piv[t] ==> Get(a, m, t, j) == 0.0) &&
    (forall i, j :: h <= i < m && 0 <= j < k ==> Get(a, m, i, j) == 0.0)
  }

  /** Reduced row echelon form of the whole m x n matrix, with pivot columns piv. */
  predicate IsRref(a: seq<real>, m: nat, n: nat, piv: seq<int>)
  {
    |piv| <= m && RrefUpTo(a, m, n, |piv|, n, piv)
  }

  /**
   * Row echelon form of the first k columns with pivot columns piv for rows 0..h-1:
   * pivot columns increase, pivots are nonzero, row t is zero left of its pivot, and rows
   * h.. are zero in the first k columns.
   */
  predicate RefUpTo(a: seq<real>, m: nat, n: nat, h: nat, k: nat, piv: seq<int>)
  {
    |a| == m * n && h <= m && h <= k <= n && |piv| == h &&
    (forall t :: 0 <= t < h ==> t <= piv[t] < k) &&
    (forall s, t :: 0 <= s < t < h ==> piv[s] < piv[t]) &&
    (forall t :: 0 <= t < h ==> Get(a, m, t, piv[t]) != 0.0) &&
    (forall t, j :: 0 <= t < h && 0 <= j < piv[t] ==> Get(a, m, t, j) == 0.0) &&
    (forall i, j :: h <= i < m && 0 <= j < k ==> Get(a, m, i, j) == 0.0)
  }

  /** When the pivot search finds only zeros, the whole column below row h is zero. */
  lemma {:induction false} ZeroColumn(a: seq<real>, m: nat, k: int, h: int)
    requires 0 <= h < m && Get(a, m, PivotRow(a, m, k, h), k) == 0.0
    ensures forall i :: h <= i < m ==> Get(a, m, i, k) == 0.0
  {
    var r := PivotRow(a, m, k, h);
    PivotRowMax(a, m, k, h);
    forall i | h <= i < m ensures Get(a, m, i, k) == 0.0 {
      assert Abs(Get(a, m, i, k)) <= Abs(Get(a, m, r, k));
    }
  }

  lemma ClearedPivotColumn(a: seq<real>, m: nat, h: int, k: int, i: int)
    requires Get(a, m, h, k) == 1.0
    ensures Get(a, m, i, k) - Get(a, m, h, k) * Factor(a, m, h, k, i) == 0.0
  {
  }

  lemma ClearedBelow(a: seq<real>, m: nat, h: int, k: int, i: int)
    requires Get(a, m, h, k) != 0.0
    ensures Get(a, m, i, k) - Get(a, m, h, k) * Factor(a, m, h, k, i) == 0.0
  {
  }

  /** Entries of an `rref` step left of column k are those of the exchanged matrix. */
  lemma {:induction false} RrefStepLeft(a: seq<real>, m: nat, n: nat, h: int, k: int, r: int)
    requires |a| == m * n && 0 <= h < m && 0 <= r < m && 0 <= k < n
    requires Get(a, m, r, k) != 0.0
    ensures forall i, j :: 0 <= i < m && 0 <= j < k ==>
      Get(RrefStep(a, m, n, h, k, r), m, i, j) == Get(Exchange(a, m, n, h, r), m, i, j)
    ensures forall i :: 0 <= i < m ==> Get(RrefStep(a, m, n, h, k, r), m, i, k) == if i == h then 1.0 else 0.0
  {
    var a1 := Exchange(a, m, n, h, r);
    ExchangeGet(a, m, n, h, r);
    var a2 := DivideRowFrom(a1, m, n, h, k, Get(a1, m, h, k));
    DividedPivot(a1, m, n, h, k);
    var a3 := Eliminate(a2, m, n, h, k, 0, m);
    assert a3 == RrefStep(a, m, n, h, k, r);
    EliminateGet(a2, m, n, h, k, 0, m);
    DivideRowFromGet(a1, m, n, h, k, Get(a1, m, h, k));
    forall i, j | 0 <= i < m && 0 <= j < k ensures Get(a3, m, i, j) == Get(a1, m, i, j) {
      assert Get(a3, m, i, j) == Cleared(a2, m, h, k, 0, m, i, j);
      assert Get(a2, m, i, j) == Divided(a1, m, h, k, Get(a1, m, h, k), i, j);
    }
    forall i | 0 <= i < m ensures Get(a3, m, i, k) == if i == h then 1.0 else 0.0 {
      assert Get(a3, m, i, k) == Cleared(a2, m, h, k, 0, m, i, k);
      ClearedPivotColumn(a2, m, h, k, i);
    }
  }

  /** A non-skipping `rref` step extends the reduced form by one pivot, in column k. */
  lemma {:induction false} RrefStepShape(a: seq<real>, m: nat, n: nat, h: nat, k: nat, piv: seq<int>, r: int)
    requires RrefUpTo(a, m, n, h, k, piv) && h < m && k < n
    requires h <= r < m && Get(a, m, r, k) != 0.0
    ensures RrefUpTo(RrefStep(a, m, n, h, k, r), m, n, h + 1, k + 1, piv + [k])
  {
    var a1 := Exchange(a, m, n, h, r);
    var a3 := RrefStep(a, m, n, h, k, r);
    var piv' := piv + [k];
    RrefStepLeft(a, m, n, h, k, r);
    ExchangeGet(a, m, n, h, r);
    forall t, i | 0 <= t < h + 1 && 0 <= i < m ensures Get(a3, m, i, piv'[t]) == if i == t then 1.0 else 0.0 {
      if t < h {
        assert piv'[t] == piv[t] < k;
        assert Get(a3, m, i, piv[t]) == Get(a1, m, i, piv[t]);
        assert Get(a, m, h, piv[t]) == 0.0 && Get(a, m, r, piv[t]) == 0.0;
      }
    }
    forall t, j | 0 <= t < h + 1 && 0 <= j < piv'[t] ensures Get(a3, m, t, j) == 0.0 {
      assert Get(a3, m, t, j) == Get(a1, m, t, j);
    }
    forall i, j | h + 1 <= i < m && 0 <= j < k + 1 ensures Get(a3, m, i, j) == 0.0 {
      if j < k {
        assert Get(a3, m, i, j) == Get(a1, m, i, j);
      }
    }
  }

  /** A column with no nonzero pivot candidate is passed over without a new pivot. */
  lemma RrefSkip(a: seq<real>, m: nat, n: nat, h: nat, k: nat, piv: seq<int>)
    requires RrefUpTo(a, m, n, h, k, piv) && h < m && k < n
    requires Get(a, m, PivotRow(a, m, k, h), k) == 0.0
    ensures RrefUpTo(a, m, n, h, k + 1, piv)
  {
    ZeroColumn(a, m, k, h);
  }

  /** Once every row or every column is used up, the partial form is the full one. */
  lemma RrefStop(a: seq<real>, m: nat, n: nat, h: nat, k: nat, piv: seq<int>)
    requires RrefUpTo(a, m, n, h, k, piv) && !(k < n && h < m)
    ensures IsRref(a, m, n, piv)
  {
  }

  /** `rref` run from a partially reduced state ends in reduced row echelon form. */
  lemma {:induction false} RrefLoopShape(a: seq<real>, m: nat, n: nat, h: nat, k: nat, ds: real, sw: nat, piv: seq<int>, vals: seq<real>)
    requires RrefUpTo(a, m, n, h, k, piv)
    decreases n - k, 1
    ensures var R := RrefLoop(a, m, n, h, k, ds, sw, piv, vals); IsRref(R.mat, m, n, R.pivots)
  {
    if !(k < n && h < m) {
      RrefStop(a, m, n, h, k, piv);
    } else if Get(a, m, PivotRow(a, m, k, h), k) == 0.0 {
      RrefSkip(a, m, n, h, k, piv);
      RrefLoopShape(a, m, n, h, k + 1, ds, sw, piv, vals);
    } else {
      RrefLoopShapeStep(a, m, n, h, k, ds, sw, piv, vals);
    }
  }

  /** The pivoting case of RrefLoopShape. */
  lemma {:induction false} RrefLoopShapeStep(a: seq<real>, m: nat, n: nat, h: nat, k: nat, ds: real, sw: nat, piv: seq<int>, vals: seq<real>)
    requires RrefUpTo(a, m, n, h, k, piv) && k < n && h < m
    requires Get(a, m, PivotRow(a, m, k, h), k) != 0.0
    decreases n - k, 0
    ensures var R := RrefLoop(a, m, n, h, k, ds, sw, piv, vals); IsRref(R.mat, m, n, R.pivots)
  {
    var r := PivotRow(a, m, k, h);
    var p := Get(a, m, r, k);
    var ds1 := (if r != h then ds * -1.0 else ds) / p;
    var sw1 := if r != h then sw + 1 else sw;
    RrefStepShape(a, m, n, h, k, piv, r);
    RrefLoopShape(RrefStep(a, m, n, h, k, r), m, n, h + 1, k + 1, ds1, sw1, piv + [k], vals + [p]);
    RrefStepUnfold(a, m, n, h, k, r, p, ds, ds1, sw, piv, vals);
  }

  /** After `rref` every pivot is 1, the rest of its column is 0, and rows below the pivots vanish. */
  lemma RrefShape(a: seq<real>, m: nat, n: nat)
    requires |a| == m * n
    ensures IsRref(Rref(a, m, n).mat, m, n, Rref(a, m, n).pivots)
  {
    RrefLoopShape(a, m, n, 0, 0, 1.0, 0, [], []);
  }

  lemma {:induction false} RefStepLeft(a: seq<real>, m: nat, n: nat, h: int, k: int, r: int)
    requires |a| == m * n && 0 <= h < m && 0 <= r < m && 0 <= k < n
    requires Get(a, m, r, k) != 0.0
    ensures forall i, j :: 0 <= i < m && 0 <= j < k ==>
      Get(RefStep(a, m, n, h, k, r), m, i, j) == Get(Exchange(a, m, n, h, r), m, i, j)
  {
    var a1 := Exchange(a, m, n, h, r);
    ExchangeGet(a, m, n, h, r);
    EliminateGet(a1, m, n, h, k, h + 1, m);
    forall i, j | 0 <= i < m && 0 <= j < k ensures Get(RefStep(a, m, n, h, k, r), m, i, j) == Get(a1, m, i, j) {
      assert Get(RefStep(a, m, n, h, k, r), m, i, j) == Cleared(a1, m, h, k, h + 1, m, i, j);
    }
  }

  lemma Cancel(x: real, p: real)
    requires p != 0.0
    ensures x - p * (x / p) == 0.0
  {
  }

  lemma {:induction false} RefStepColumnAt(a: seq<real>, m: nat, n: nat, h: int, k: int, r: int, i: int)
    requires |a| == m * n && 0 <= h < m && 0 <= r < m && 0 <= k < n
    requires Get(a, m, r, k) != 0.0 && h < i < m
    ensures Get(RefStep(a, m, n, h, k, r), m, i, k) == 0.0
  {
    var a1 := Exchange(a, m, n, h, r);
    ExchangeGet(a, m, n, h, r);
    var p := Get(a1, m, h, k);
    assert p == Get(a, m, r, k);
    EliminateGet(a1, m, n, h, k, h + 1, m);
    var x := Get(a1, m, i, k);
    assert Get(RefStep(a, m, n, h, k, r), m, i, k) == Cleared(a1, m, h, k, h + 1, m, i, k);
    assert Cleared(a1, m, h, k, h + 1, m, i, k) == x - p * (x / p);
    Cancel(x, p);
  }

  lemma {:induction false} RefStepColumn(a: seq<real>, m: nat, n: nat, h: int, k: int, r: int)
    requires |a| == m * n && 0 <= h < m && 0 <= r < m && 0 <= k < n
    requires Get(a, m, r, k) != 0.0
    ensures forall i :: h < i < m ==> Get(RefStep(a, m, n, h, k, r), m, i, k) == 0.0
  {
    forall i | h < i < m ensures Get(RefStep(a, m, n, h, k, r), m, i, k) == 0.0 {
      RefStepColumnAt(a, m, n, h, k, r, i);
    }
  }

  lemma {:induction false} RefStepPivotRow(a: seq<real>, m: nat, n: nat, h: int, k: int, r: int)
    requires |a| == m * n && 0 <= h < m && 0 <= r < m && 0 <= k < n
    requires Get(a, m, r, k) != 0.0
    ensures forall j :: 0 <= j < n ==> Get(RefStep(a, m, n, h, k, r), m, h, j) == Get(a, m, r, j)
  {
    var a1 := Exchange(a, m, n, h, r);
    ExchangeGet(a, m, n, h, r);
    EliminateGet(a1, m, n, h, k, h + 1, m);
    forall j | 0 <= j < n ensures Get(RefStep(a, m, n, h, k, r), m, h, j) == Get(a, m, r, j) {
      assert Get(RefStep(a, m, n, h, k, r), m, h, j) == Cleared(a1, m, h, k, h + 1, m, h, j);
    }
  }

  /** A non-skipping `ref` step extends the echelon form by one pivot, in column k. */
  lemma {:induction false} RefStepShape(a: seq<real>, m: nat, n: nat, h: nat, k: nat, piv: seq<int>, r: int)
    requires RefUpTo(a, m, n, h, k, piv) && h < m && k < n
    requires h <= r < m && Get(a, m, r, k) != 0.0
    ensures RefUpTo(RefStep(a, m, n, h, k, r), m, n, h + 1, k + 1, piv + [k])
  {
    var a1 := Exchange(a, m, n, h, r);
    var a3 := RefStep(a, m, n, h, k, r);
    var piv' := piv + [k];
    RefStepLeft(a, m, n, h, k, r);
    ExchangeGet(a, m, n, h, r);
    RefStepColumn(a, m, n, h, k, r);
    RefStepPivotRow(a, m, n, h, k, r);
    forall t | 0 <= t < h + 1 ensures Get(a3, m, t, piv'[t]) != 0.0 {
      if t < h {
        assert Get(a3, m, t, piv[t]) == Get(a1, m, t, piv[t]);
      }
    }
    forall t, j | 0 <= t < h + 1 && 0 <= j < piv'[t] ensures Get(a3, m, t, j) == 0.0 {
      assert Get(a3, m, t, j) == Get(a1, m, t, j);
    }
    forall i, j | h + 1 <= i < m && 0 <= j < k + 1 ensures Get(a3, m, i, j) == 0.0 {
      if j < k {
        assert Get(a3, m, i, j) == Get(a1, m, i, j);
      }
    }
  }

  /** A column with no nonzero pivot candidate is passed over by `ref` too. */
  lemma RefSkip(a: seq<real>, m: nat, n: nat, h: nat, k: nat, piv: seq<int>)
    requires RefUpTo(a, m, n, h, k, piv) && h < m && k < n
    requires Get(a, m, PivotRow(a, m, k, h), k) == 0.0
    ensures RefUpTo(a, m, n, h, k + 1, piv)
  {
    ZeroColumn(a, m, k, h);
  }

  /**
   * Row echelon form of an m x n matrix with pivot columns piv: the echelon conditions
   * hold for the first k columns, and either every column is used up (k == n) or only the
   * last row is left (`ref` stops before processing it).
   */
  predicate IsRowEchelon(a: seq<real>, m: nat, n: nat, piv: seq<int>, k: nat)
  {
    RefUpTo(a, m, n, |piv|, k, piv) && (k == n || |piv| + 1 >= m)
  }

  lemma RefStop(a: seq<real>, m: nat, n: nat, h: nat, k: nat, ds: real, sw: nat, piv: seq<int>, vals: seq<real>)
    requires RefUpTo(a, m, n, h, k, piv) && !(h < m - 1 && k < n)
    ensures RefLoop(a, m, n, h, k, ds, sw, piv, vals) == Reduction(a, ds, sw, piv, vals, k)
    ensures IsRowEchelon(a, m, n, piv, k)
  {
  }

  lemma SameEchelon(x: Reduction, y: Reduction, m: nat, n: nat)
    requires x == y && IsRowEchelon(x.mat, m, n, x.pivots, x.stop)
    ensures IsRowEchelon(y.mat, m, n, y.pivots, y.stop)
  {
  }

  /** `ref` run from a partial echelon form ends in row echelon form. */
  lemma {:induction false} RefLoopShape(a: seq<real>, m: nat, n: nat, h: nat, k: nat, ds: real, sw: nat, piv: seq<int>, vals: seq<real>)
    requires RefUpTo(a, m, n, h, k, piv)
    decreases n - k, 1
    ensures var R := RefLoop(a, m, n, h, k, ds, sw, piv, vals); IsRowEchelon(R.mat, m, n, R.pivots, R.stop)
  {
    if !(h < m - 1 && k < n) {
      RefStop(a, m, n, h, k, ds, sw, piv, vals);
    } else if Get(a, m, PivotRow(a, m, k, h), k) == 0.0 {
      RefSkip(a, m, n, h, k, piv);
      RefLoopShape(a, m, n, h, k + 1, ds, sw, piv, vals);
      assert RefLoop(a, m, n, h, k, ds, sw, piv, vals) == RefLoop(a, m, n, h, k + 1, ds, sw, piv, vals);
    } else {
      RefLoopShapeStep(a, m, n, h, k, ds, sw, piv, vals);
    }
  }

  /** The non-skipping case of `RefLoopShape`. */
  lemma {:induction false} RefLoopShapeStep(a: seq<real>, m: nat, n: nat, h: nat, k: nat, ds: real, sw: nat, piv: seq<int>, vals: seq<real>)
    requires RefUpTo(a, m, n, h, k, piv) && h < m - 1 && k < n
    requires Get(a, m, PivotRow(a, m, k, h), k) != 0.0
    decreases n - k, 0
    ensures var R := RefLoop(a, m, n, h, k, ds, sw, piv, vals); IsRowEchelon(R.mat, m, n, R.pivots, R.stop)
  {
    var r := PivotRow(a, m, k, h);
    var a3 := RefStep(a, m, n, h, k, r);
    var ds1 := if r != h then ds * -1.0 else ds;
    var sw1 := if r != h then sw + 1 else sw;
    var rest := RefLoop(a3, m, n, h + 1, k + 1, ds1, sw1, piv + [k], vals + [Get(a, m, r, k)]);
    RefStepUnfold(a, m, n, h, k, ds, sw, piv, vals);
    RefStepShape(a, m, n, h, k, piv, r);
    RefLoopShape(a3, m, n, h + 1, k + 1, ds1, sw1, piv + [k], vals + [Get(a, m, r, k)]);
    SameEchelon(rest, RefLoop(a, m, n, h, k, ds, sw, piv, vals), m, n);
  }

  /** In row echelon form every entry below a pivot is zero. */
  lemma {:induction false} BelowPivots(a: seq<real>, m: nat, n: nat, piv: seq<int>, k: nat)
    requires IsRowEchelon(a, m, n, piv, k)
    ensures forall t, i :: 0 <= t < |piv| && t < i < m ==> Get(a, m, i, piv[t]) == 0.0
  {
    forall t, i | 0 <= t < |piv| && t < i < m ensures Get(a, m, i, piv[t]) == 0.0 {
      if i < |piv| {
        assert piv[t] < piv[i];
      }
    }
  }

  /** A square matrix in row echelon form is upper triangular. */
  lemma {:induction false} EchelonUpperTriangular(a: seq<real>, n: nat, piv: seq<int>, k: nat)
    requires IsRowEchelon(a, n, n, piv, k)
    ensures forall i, j :: 0 <= j < i < n ==> Get(a, n, i, j) == 0.0
  {
    forall i, j | 0 <= j < i < n ensures Get(a, n, i, j) == 0.0 {
      if i < |piv| {
        assert j < i <= piv[i];
      } else {
        assert j < k;
      }
    }
  }

  /**
   * After `ref` all entries below each pivot are zero, and a square matrix has become
   * upper triangular.
   */
  lemma RefShape(a: seq<real>, m: nat, n: nat)
    requires |a| == m * n
    ensures var R := Ref(a, m, n);
      IsRowEchelon(R.mat, m, n, R.pivots, R.stop) &&
      (forall t, i :: 0 <= t < |R.pivots| && t < i < m ==> Get(R.mat, m, i, R.pivots[t]) == 0.0) &&
      (m == n ==> forall i, j :: 0 <= j < i < n ==> Get(R.mat, n, i, j) == 0.0)
  {
    var R := Ref(a, m, n);
    RefLoopShape(a, m, n, 0, 0, 1.0, 0, [], []);
    BelowPivots(R.mat, m, n, R.pivots, R.stop);
    if m == n {
      EchelonUpperTriangular(R.mat, n, R.pivots, R.stop);
    }
  }

  /** The scale factor times the product of the pivot values is (-1)^swaps. */
  predicate ScaleMatches(ds: real, vals: seq<real>, sw: nat)
  {
    ds * Prod(vals) == NegPow(sw) && NonZero(vals)
  }

  /** One pivot of `rref` keeps scale * product of pivots == (-1)^swaps. */
  lemma RrefScaleStep(ds: real, sw: nat, vals: seq<real>, p: real, swapped: bool, ds1: real, sw1: nat)
    requires ScaleMatches(ds, vals, sw) && p != 0.0
    requires ds1 == (if swapped then ds * -1.0 else ds) && sw1 == (if swapped then sw + 1 else sw)
    ensures ScaleMatches(ds1 / p, vals + [p], sw1)
  {
    var sign := if swapped then -1.0 else 1.0;
    assert (vals + [p])[..|vals|] == vals;
    assert Prod(vals + [p]) == Prod(vals) * p;
    ScaleStep(ds, sign, Prod(vals), p);
  }

  /** The scale `rref` carries times the product of the pivots so far is (-1)^swaps. */
  lemma {:induction false} RrefLoopScale(a: seq<real>, m: nat, n: nat, h: nat, k: nat, ds: real, sw: nat, piv: seq<int>, vals: seq<real>)
    requires |a| == m * n && ScaleMatches(ds, vals, sw)
    decreases n - k, 1
    ensures var R := RrefLoop(a, m, n, h, k, ds, sw, piv, vals); ScaleMatches(R.scale, R.values, R.swaps)
  {
    if k < n && h < m {
      var r := PivotRow(a, m, k, h);
      if Get(a, m, r, k) == 0.0 {
        RrefLoopScale(a, m, n, h, k + 1, ds, sw, piv, vals);
      } else {
        RrefStepScale(a, m, n, h, k, r, ds, sw, piv, vals);
      }
    }
  }

  /** The pivoting case of RrefLoopScale. */
  lemma {:induction false} RrefStepScale(a: seq<real>, m: nat, n: nat, h: nat, k: nat, r: nat, ds: real, sw: nat, piv: seq<int>, vals: seq<real>)
    requires |a| == m * n && ScaleMatches(ds, vals, sw)
    requires k < n && h < m && r == PivotRow(a, m, k, h) && Get(a, m, r, k) != 0.0
    decreases n - k, 0
    ensures var R := RrefLoop(a, m, n, h, k, ds, sw, piv, vals); ScaleMatches(R.scale, R.values, R.swaps)
  {
    var p := Get(a, m, r, k);
    var ds1 := if r != h then ds * -1.0 else ds;
    var sw1 := if r != h then sw + 1 else sw;
    RrefScaleStep(ds, sw, vals, p, r != h, ds1, sw1);
    RrefLoopScale(RrefStep(a, m, n, h, k, r), m, n, h + 1, k + 1, ds1 / p, sw1, piv + [k], vals + [p]);
    RrefStepUnfold(a, m, n, h, k, r, p, ds, ds1 / p, sw, piv, vals);
  }

  /**
   * The factor `rref` returns times the product of the pivots it divided by is (-1)^swaps,
   * and that product is nonzero, so the factor is (-1)^swaps over the product.
   */
  lemma RrefScale(a: seq<real>, m: nat, n: nat)
    requires |a| == m * n
    ensures var R := Rref(a, m, n); ScaleMatches(R.scale, R.values, R.swaps) && Prod(R.values) != 0.0
  {
    var R := Rref(a, m, n);
    RrefLoopScale(a, m, n, 0, 0, 1.0, 0, [], []);
    ProdNonZero(R.values);
  }

  /** `ref` never divides a row, so its running factor is (-1)^swaps throughout. */
  lemma {:induction false} RefLoopScale(a: seq<real>, m: nat, n: nat, h: nat, k: nat, ds: real, sw: nat, piv: seq<int>, vals: seq<real>)
    requires |a| == m * n && ds == NegPow(sw)
    decreases n - k, 1
    ensures var R := RefLoop(a, m, n, h, k, ds, sw, piv, vals); R.scale == NegPow(R.swaps)
  {
    if h < m - 1 && k < n {
      if Get(a, m, PivotRow(a, m, k, h), k) == 0.0 {
        RefLoopScale(a, m, n, h, k + 1, ds, sw, piv, vals);
      } else {
        RefStepScale(a, m, n, h, k, ds, sw, piv, vals);
      }
    }
  }

  /** The pivoting case of RefLoopScale. */
  lemma {:induction false} RefStepScale(a: seq<real>, m: nat, n: nat, h: nat, k: nat, ds: real, sw: nat, piv: seq<int>, vals: seq<real>)
    requires |a| == m * n && ds == NegPow(sw) && h < m - 1 && k < n
    requires Get(a, m, PivotRow(a, m, k, h), k) != 0.0
    decreases n - k, 0
    ensures var R := RefLoop(a, m, n, h, k, ds, sw, piv, vals); R.scale == NegPow(R.swaps)
  {
    var r := PivotRow(a, m, k, h);
    RefLoopScale(RefStep(a, m, n, h, k, r), m, n, h + 1, k + 1, if r != h then ds * -1.0 else ds,
                 if r != h then sw + 1 else sw, piv + [k], vals + [Get(a, m, r, k)]);
    RefStepUnfold(a, m, n, h, k, ds, sw, piv, vals);
  }

  lemma {:induction false} NegPowSign(n: nat)
    ensures NegPow(n) == 1.0 || NegPow(n) == -1.0
  {
    if n > 0 {
      NegPowSign(n - 1);
    }
  }

  /** The factor `ref` returns is 1 or -1: (-1)^swaps. */
  lemma RefScale(a: seq<real>, m: nat, n: nat)
    requires |a| == m * n
    ensures var R := Ref(a, m, n); R.scale == NegPow(R.swaps) && (R.scale == 1.0 || R.scale == -1.0)
  {
    RefLoopScale(a, m, n, 0, 0, 1.0, 0, [], []);
    NegPowSign(Ref(a, m, n).swaps);
  }
}
