/**
 * The three row operations Gauss and Gauss-Jordan elimination perform on a column-major
 * m x n buffer, each as a function on values: exchanging two rows, dividing the tail of
 * the pivot row by the pivot, and subtracting multiples of the pivot row from other rows.
 */
module RowOps {
  import opened Layout

  /** |x|, as Math.abs computes it. */
  function Abs(x: real): (r: real)
    ensures r >= 0.0 && (r == x || r == -x)
  {
    if x < 0.0 then -x else x
  }

  /** Entry (i, j) once rows r and s are exchanged. */
  function Swapped(a: seq<real>, m: nat, r: int, s: int, i: int, j: int): real
  {
    if i == r then Get(a, m, s, j) else if i == s then Get(a, m, r, j) else Get(a, m, i, j)
  }

  function SwappedF(a: seq<real>, m: nat, r: int, s: int): (int, int) -> real
  {
    (i, j) => Swapped(a, m, r, s, i, j)
  }

  /** Rows r and s exchanged; every other row kept. */
  function SwapRows(a: seq<real>, m: nat, n: nat, r: int, s: int): (res: seq<real>)
    ensures |res| == m * n
  {
    Build(m, n, SwappedF(a, m, r, s))
  }

  lemma SwapRowsGet(a: seq<real>, m: nat, n: nat, r: int, s: int)
    ensures forall i, j :: 0 <= i < m && 0 <= j < n ==> Get(SwapRows(a, m, n, r, s), m, i, j) == Swapped(a, m, r, s, i, j)
  {
    BuildGet(m, n, SwappedF(a, m, r, s));
  }

  /** Entry (i, j) once the entries of row h from column k on are divided by p. */
  function Divided(a: seq<real>, m: nat, h: int, k: int, p: real, i: int, j: int): real
    requires p != 0.0
  {
    if i == h && k <= j then Get(a, m, i, j) / p else Get(a, m, i, j)
  }

  function DividedF(a: seq<real>, m: nat, h: int, k: int, p: real): (int, int) -> real
    requires p != 0.0
  {
    (i, j) => Divided(a, m, h, k, p, i, j)
  }

  /** Entries of row h from column k on divided by p; the rest kept. */
  function DivideRowFrom(a: seq<real>, m: nat, n: nat, h: int, k: int, p: real): (res: seq<real>)
    requires p != 0.0
    ensures |res| == m * n
  {
    Build(m, n, DividedF(a, m, h, k, p))
  }

  lemma DivideRowFromGet(a: seq<real>, m: nat, n: nat, h: int, k: int, p: real)
    requires p != 0.0
    ensures forall i, j :: 0 <= i < m && 0 <= j < n ==> Get(DivideRowFrom(a, m, n, h, k, p), m, i, j) == Divided(a, m, h, k, p, i, j)
  {
    BuildGet(m, n, DividedF(a, m, h, k, p));
  }

  /** The multiplier that clears entry (i, k) against the pivot (h, k). */
  function Factor(a: seq<real>, m: nat, h: int, k: int, i: int): real
    requires Get(a, m, h, k) != 0.0
  {
    Get(a, m, i, k) / Get(a, m, h, k)
  }

  /** Entry (i, j) after clearing column k of rows lo..hi-1 (other than h) against row h. */
  function Cleared(a: seq<real>, m: nat, h: int, k: int, lo: int, hi: int, i: int, j: int): real
    requires Get(a, m, h, k) != 0.0
  {
    if lo <= i < hi && i != h && k <= j then Get(a, m, i, j) - Get(a, m, h, j) * Factor(a, m, h, k, i)
    else Get(a, m, i, j)
  }

  /**
   * Every row i with lo <= i < hi, other than the pivot row h, loses Factor(i) times the
   * pivot row in the columns from k on.
   */
  function Eliminate(a: seq<real>, m: nat, n: nat, h: int, k: int, lo: int, hi: int): (res: seq<real>)
    requires Get(a, m, h, k) != 0.0
    ensures |res| == m * n
  {
    Build(m, n, ClearedF(a, m, h, k, lo, hi))
  }

  function ClearedF(a: seq<real>, m: nat, h: int, k: int, lo: int, hi: int): (int, int) -> real
    requires Get(a, m, h, k) != 0.0
  {
    (i, j) => Cleared(a, m, h, k, lo, hi, i, j)
  }

  lemma EliminateGet(a: seq<real>, m: nat, n: nat, h: int, k: int, lo: int, hi: int)
    requires Get(a, m, h, k) != 0.0
    ensures forall i, j :: 0 <= i < m && 0 <= j < n ==> Get(Eliminate(a, m, n, h, k, lo, hi), m, i, j) == Cleared(a, m, h, k, lo, hi, i, j)
  {
    BuildGet(m, n, ClearedF(a, m, h, k, lo, hi));
  }

  /** Entry (r, c) once row i has lost f times row h in columns k..j-1. */
  function Subtracted(a: seq<real>, m: nat, i: int, h: int, k: int, j: int, f: real, r: int, c: int): real
  {
    if r == i && k <= c < j then Get(a, m, i, c) - Get(a, m, h, c) * f else Get(a, m, r, c)
  }

  /**
   * One iteration of the elimination loop: when rows lo..i-1 are cleared in b and row i
   * then loses f = b[i, k] / b[h, k] times row h from column k on, rows lo..i are cleared.
   */
  lemma ClearedStep(a: seq<real>, b: seq<real>, d: seq<real>, m: nat, n: nat, h: int, k: int, lo: int, i: int, f: real)
    requires Get(a, m, h, k) != 0.0 && lo <= i && i != h && 0 <= k < n
    requires forall r, c :: 0 <= r < m && 0 <= c < n ==> Get(b, m, r, c) == Cleared(a, m, h, k, lo, i, r, c)
    requires Get(b, m, h, k) != 0.0 && f == Get(b, m, i, k) / Get(b, m, h, k)
    requires forall r, c :: 0 <= r < m && 0 <= c < n ==> Get(d, m, r, c) == Subtracted(b, m, i, h, k, n, f, r, c)
    ensures forall r, c :: 0 <= r < m && 0 <= c < n ==> Get(d, m, r, c) == Cleared(a, m, h, k, lo, i + 1, r, c)
  {
    if 0 <= i < m && 0 <= h < m {
      assert Get(b, m, i, k) == Get(a, m, i, k) && Get(b, m, h, k) == Get(a, m, h, k);
      assert f == Factor(a, m, h, k, i);
    }
    forall r, c | 0 <= r < m && 0 <= c < n ensures Get(d, m, r, c) == Cleared(a, m, h, k, lo, i + 1, r, c) {
      if r == i && k <= c {
        assert Get(b, m, i, c) == Get(a, m, i, c) && Get(b, m, h, c) == Get(a, m, h, c);
      }
    }
  }

  /** The pivot row is passed over: clearing up to h is clearing up to h + 1. */
  lemma ClearedSkip(a: seq<real>, b: seq<real>, m: nat, n: nat, h: int, k: int, lo: int)
    requires Get(a, m, h, k) != 0.0
    requires forall r, c :: 0 <= r < m && 0 <= c < n ==> Get(b, m, r, c) == Cleared(a, m, h, k, lo, h, r, c)
    ensures forall r, c :: 0 <= r < m && 0 <= c < n ==> Get(b, m, r, c) == Cleared(a, m, h, k, lo, h + 1, r, c)
  {
  }
}
