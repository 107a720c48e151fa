/**
 * Gauss-Jordan reduction to reduced row echelon form (`rref`) and Gaussian reduction to
 * row echelon form (`ref`) with partial pivoting, as recursive functions that follow the
 * loops of matrix.js step by step, and what they establish: the echelon shape of the
 * result and the closed form of the determinant scale factor they return.
 */
module Reduce {
  import opened Layout
  import opened RowOps

  /**
   * The pivot search: starting from candidate `best`, rows i, i+1, ..., m-1 of column k
   * are scanned and a row replaces the candidate only when its magnitude is strictly larger.
   */
  function PivotScan(a: seq<real>, m: nat, k: int, best: int, i: int): (r: int)
    requires 0 <= best < i
    decreases m - i
    ensures r == best || i <= r < m
  {
    if i >= m then best
    else PivotScan(a, m, k, if Abs(Get(a, m, i, k)) > Abs(Get(a, m, best, k)) then i else best, i + 1)
  }

  /**
   * The scan ends on an entry of largest magnitude among the candidate and rows i..m-1,
   * and on the first such: every row it passes over before the result is strictly smaller.
   */
  lemma {:induction false} PivotScanMax(a: seq<real>, m: nat, k: int, best: int, i: int)
    requires 0 <= best < i
    decreases m - i
    ensures var r := PivotScan(a, m, k, best, i);
      Abs(Get(a, m, best, k)) <= Abs(Get(a, m, r, k)) &&
      (forall t :: i <= t < m ==> Abs(Get(a, m, t, k)) <= Abs(Get(a, m, r, k))) &&
      (forall t :: i <= t < r ==> Abs(Get(a, m, t, k)) < Abs(Get(a, m, r, k))) &&
      (r != best ==> Abs(Get(a, m, best, k)) < Abs(Get(a, m, r, k)))
  {
    if i < m {
      PivotScanMax(a, m, k, if Abs(Get(a, m, i, k)) > Abs(Get(a, m, best, k)) then i else best, i + 1);
    }
  }

  /** The row of the first entry of largest magnitude in column k among rows h..m-1. */
  function PivotRow(a: seq<real>, m: nat, k: int, h: int): (r: int)
    requires 0 <= h < m
    ensures h <= r < m
  {
    PivotScan(a, m, k, h, h + 1)
  }

  /** The pivot row holds an entry of largest magnitude, and no earlier row does. */
  lemma PivotRowMax(a: seq<real>, m: nat, k: int, h: int)
    requires 0 <= h < m
    ensures var r := PivotRow(a, m, k, h);
      (forall t :: h <= t < m ==> Abs(Get(a, m, t, k)) <= Abs(Get(a, m, r, k))) &&
      (forall t :: h <= t < r ==> Abs(Get(a, m, t, k)) < Abs(Get(a, m, r, k)))
  {
    PivotScanMax(a, m, k, h, h + 1);
  }

  /**
   * What a reduction produces: the reduced matrix, the determinant scale factor, and a
   * record of the run (number of row exchanges, pivot columns and pivot values in order,
   * and the column the run stopped at).
   */
  datatype Reduction = Reduction(mat: seq<real>, scale: real, swaps: nat, pivots: seq<int>, values: seq<real>, stop: nat)

  /** The exchange of rows h and r that brings the pivot candidate up, when they differ. */
  function Exchange(a: seq<real>, m: nat, n: nat, h: int, r: int): (res: seq<real>)
    requires |a| == m * n && 0 <= h < m && 0 <= r < m
    ensures |res| == m * n
  {
    if r != h then SwapRows(a, m, n, r, h) else a
  }

  lemma ExchangeGet(a: seq<real>, m: nat, n: nat, h: int, r: int)
    requires |a| == m * n && 0 <= h < m && 0 <= r < m
    ensures forall i, j :: 0 <= i < m && 0 <= j < n ==>
      Get(Exchange(a, m, n, h, r), m, i, j) == if i == h then Get(a, m, r, j) else if i == r then Get(a, m, h, j) else Get(a, m, i, j)
  {
    if r != h {
      SwapRowsGet(a, m, n, r, h);
    }
  }

  lemma SelfQuotient(x: real)
    requires x != 0.0
    ensures x / x == 1.0
  {
  }

  lemma DividedPivot(a: seq<real>, m: nat, n: nat, h: int, k: int)
    requires |a| == m * n && 0 <= h < m && 0 <= k < n && Get(a, m, h, k) != 0.0
    ensures Get(DivideRowFrom(a, m, n, h, k, Get(a, m, h, k)), m, h, k) == 1.0
  {
    var p := Get(a, m, h, k);
    DivideRowFromGet(a, m, n, h, k, p);
    assert Get(DivideRowFrom(a, m, n, h, k, p), m, h, k) == Divided(a, m, h, k, p, h, k);
    SelfQuotient(p);
  }

  /** One non-skipping step of `rref` at pivot row h, column k, from pivot candidate row r. */
  function RrefStep(a: seq<real>, m: nat, n: nat, h: int, k: int, r: int): (res: seq<real>)
    requires |a| == m * n && 0 <= h < m && 0 <= r < m && 0 <= k < n
    requires Get(a, m, r, k) != 0.0
    ensures |res| == m * n
  {
    var a1 := Exchange(a, m, n, h, r);
    ExchangeGet(a, m, n, h, r);
    var a2 := DivideRowFrom(a1, m, n, h, k, Get(a1, m, h, k));
    DividedPivot(a1, m, n, h, k);
    Eliminate(a2, m, n, h, k, 0, m)
  }

  /**
   * Gauss-Jordan elimination from pivot row h, column k, with scale factor ds so far;
   * sw, piv and vals record the exchanges, pivot columns and pivot values so far.
   */
  function RrefLoop(a: seq<real>, m: nat, n: nat, h: nat, k: nat, ds: real, sw: nat, piv: seq<int>, vals: seq<real>): (res: Reduction)
    requires |a| == m * n
    decreases n - k
    ensures |res.mat| == m * n
  {
    if !(k < n && h < m) then Reduction(a, ds, sw, piv, vals, k)
    else
      var r := PivotRow(a, m, k, h);
      if Get(a, m, r, k) == 0.0 then RrefLoop(a, m, n, h, k + 1, ds, sw, piv, vals)
      else
        var p := Get(a, m, r, k);
        var ds1 := if r != h then ds * -1.0 else ds;
        RrefLoop(RrefStep(a, m, n, h, k, r), m, n, h + 1, k + 1, ds1 / p,
                 if r != h then sw + 1 else sw, piv + [k], vals + [p])
  }

  /** `rref` on an m x n matrix: the run from row 0, column 0 with scale 1. */
  function Rref(a: seq<real>, m: nat, n: nat): (res: Reduction)
    requires |a| == m * n
    ensures |res.mat| == m * n
  {
    RrefLoop(a, m, n, 0, 0, 1.0, 0, [], [])
  }

  /** One non-skipping step of `ref`: exchange, then clear the column below the pivot. */
  function RefStep(a: seq<real>, m: nat, n: nat, h: int, k: int, r: int): (res: seq<real>)
    requires |a| == m * n && 0 <= h < m && 0 <= r < m && 0 <= k < n
    requires Get(a, m, r, k) != 0.0
    ensures |res| == m * n
  {
    ExchangeGet(a, m, n, h, r);
    Eliminate(Exchange(a, m, n, h, r), m, n, h, k, h + 1, m)
  }

  /** Gaussian elimination from pivot row h, column k, with scale factor ds so far. */
  function RefLoop(a: seq<real>, m: nat, n: nat, h: nat, k: nat, ds: real, sw: nat, piv: seq<int>, vals: seq<real>): (res: Reduction)
    requires |a| == m * n
    decreases n - k
    ensures |res.mat| == m * n
  {
    if !(h < m - 1 && k < n) then Reduction(a, ds, sw, piv, vals, k)
    else
      var r := PivotRow(a, m, k, h);
      if Get(a, m, r, k) == 0.0 then RefLoop(a, m, n, h, k + 1, ds, sw, piv, vals)
      else
        RefLoop(RefStep(a, m, n, h, k, r), m, n, h + 1, k + 1, if r != h then ds * -1.0 else ds,
                if r != h then sw + 1 else sw, piv + [k], vals + [Get(a, m, r, k)])
  }

  /** `ref` on an m x n matrix: the run from row 0, column 0 with scale 1. */
  function Ref(a: seq<real>, m: nat, n: nat): (res: Reduction)
    requires |a| == m * n
    ensures |res.mat| == m * n
  {
    RefLoop(a, m, n, 0, 0, 1.0, 0, [], [])
  }
  /** A column without a nonzero candidate is skipped: the run goes on at the next column. */
  lemma RrefSkipUnfold(a: seq<real>, m: nat, n: nat, h: nat, k: nat, ds: real, sw: nat, piv: seq<int>, vals: seq<real>)
    requires |a| == m * n && k < n && h < m && Get(a, m, PivotRow(a, m, k, h), k) == 0.0
    ensures RrefLoop(a, m, n, h, k, ds, sw, piv, vals) == RrefLoop(a, m, n, h, k + 1, ds, sw, piv, vals)
  {
  }

  /**
   * A column whose candidate row r holds a nonzero p takes one step of `rref` and advances
   * both row and column; ds' is the scale negated on an exchange and divided by p.
   */
  lemma RrefStepUnfold(a: seq<real>, m: nat, n: nat, h: nat, k: nat, r: nat, p: real, ds: real, ds': real, sw: nat, piv: seq<int>, vals: seq<real>)
    requires |a| == m * n && k < n && h < m && r == PivotRow(a, m, k, h) && p == Get(a, m, r, k) && p != 0.0
    requires ds' == (if r != h then ds * -1.0 else ds) / p
    ensures RrefLoop(a, m, n, h, k, ds, sw, piv, vals) ==
      RrefLoop(RrefStep(a, m, n, h, k, r), m, n, h + 1, k + 1, ds', if r != h then sw + 1 else sw, piv + [k], vals + [p])
  {
  }

  /** The `ref` counterpart of RrefSkipUnfold. */
  lemma RefSkipUnfold(a: seq<real>, m: nat, n: nat, h: nat, k: nat, ds: real, sw: nat, piv: seq<int>, vals: seq<real>)
    requires |a| == m * n && k < n && h < m - 1 && Get(a, m, PivotRow(a, m, k, h), k) == 0.0
    ensures RefLoop(a, m, n, h, k, ds, sw, piv, vals) == RefLoop(a, m, n, h, k + 1, ds, sw, piv, vals)
  {
  }

  /** The `ref` counterpart of RrefStepUnfold. */
  lemma RefStepUnfold(a: seq<real>, m: nat, n: nat, h: nat, k: nat, ds: real, sw: nat, piv: seq<int>, vals: seq<real>)
    requires |a| == m * n && k < n && h < m - 1 && Get(a, m, PivotRow(a, m, k, h), k) != 0.0
    ensures var r := PivotRow(a, m, k, h);
      RefLoop(a, m, n, h, k, ds, sw, piv, vals) ==
      RefLoop(RefStep(a, m, n, h, k, r), m, n, h + 1, k + 1, if r != h then ds * -1.0 else ds,
              if r != h then sw + 1 else sw, piv + [k], vals + [Get(a, m, r, k)])
  {
  }
}
