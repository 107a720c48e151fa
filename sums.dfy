/** Finite sums over a range of naturals, the arithmetic behind every matrix product. */
module Sums {

  /**
   * A product of reals as a function of its two factors. Definitions that multiply through
   * it unfold to terms that meet term for term, where a bare `*` between nonlinear terms
   * would leave the solver to rediscover the product.
   */
  function Times(x: real, y: real): real
  {
    x * y
  }

  /** f(0) + f(1) + ... + f(n-1) */
  function Sum(n: nat, f: int -> real): real
  {
    if n == 0 then 0.0 else Sum(n - 1, f) + f(n - 1)
  }

  lemma {:induction false} SumExt(n: nat, f: int -> real, g: int -> real)
    requires forall k :: 0 <= k < n ==> f(k) == g(k)
    ensures Sum(n, f) == Sum(n, g)
  {
    if n > 0 { SumExt(n - 1, f, g); }
  }

  lemma {:induction false} SumZero(n: nat, f: int -> real)
    requires forall k :: 0 <= k < n ==> f(k) == 0.0
    ensures Sum(n, f) == 0.0
  {
    if n > 0 { SumZero(n - 1, f); }
  }

  /** A sum of terms that are never negative is never negative. */
  lemma {:induction false} SumNonnegative(n: nat, f: int -> real)
    requires forall k :: 0 <= k < n ==> f(k) >= 0.0
    ensures Sum(n, f) >= 0.0
  {
    if n > 0 { SumNonnegative(n - 1, f); }
  }

  /** Linearity: a sum of `f - c*g` is the sum of `f` minus `c` times the sum of `g`. */
  lemma {:induction false} SumLinear(n: nat, f: int -> real, g: int -> real, c: real, h: int -> real)
    requires forall k :: 0 <= k < n ==> h(k) == f(k) - c * g(k)
    ensures Sum(n, h) == Sum(n, f) - c * Sum(n, g)
  {
    if n > 0 { SumLinear(n - 1, f, g, c, h); }
  }

  lemma {:induction false} SumScale(n: nat, f: int -> real, c: real, h: int -> real)
    requires forall k :: 0 <= k < n ==> h(k) == c * f(k)
    ensures Sum(n, h) == c * Sum(n, f)
  {
    if n > 0 { SumScale(n - 1, f, c, h); }
  }

  lemma {:induction false} SumScaleRight(n: nat, f: int -> real, c: real, h: int -> real)
    requires forall k :: 0 <= k < n ==> h(k) == f(k) * c
    ensures Sum(n, h) == Sum(n, f) * c
  {
    if n > 0 { SumScaleRight(n - 1, f, c, h); }
  }

  /** A sum whose terms vanish outside one index `t` is that term. */
  lemma {:induction false} SumSingle(n: nat, f: int -> real, t: nat)
    requires t < n
    requires forall k :: 0 <= k < n && k != t ==> f(k) == 0.0
    ensures Sum(n, f) == f(t)
  {
    if n - 1 == t {
      SumZero(n - 1, f);
    } else {
      SumSingle(n - 1, f, t);
    }
  }

  /** A sum whose terms vanish outside two distinct indices s and t is those two terms. */
  lemma {:induction false} SumTwo(n: nat, f: int -> real, s: nat, t: nat)
    requires s < n && t < n && s != t
    requires forall k :: 0 <= k < n && k != s && k != t ==> f(k) == 0.0
    ensures Sum(n, f) == f(s) + f(t)
  {
    if n - 1 == t {
      SumSingle(n - 1, f, s);
    } else if n - 1 == s {
      SumSingle(n - 1, f, t);
    } else {
      SumTwo(n - 1, f, s, t);
    }
  }

  /** A sum over a prefix whose terms vanish beyond it. */
  lemma {:induction false} SumPrefix(n: nat, t: nat, f: int -> real)
    requires t <= n
    requires forall k :: t <= k < n ==> f(k) == 0.0
    ensures Sum(n, f) == Sum(t, f)
  {
    if n > t { SumPrefix(n - 1, t, f); }
  }

  /** Row i of a two-argument term: j => f(i, j). */
  function RowOf(f: (int, int) -> real, i: int): int -> real
  {
    j => f(i, j)
  }

  /** Column j of a two-argument term: i => f(i, j). */
  function ColOf(f: (int, int) -> real, j: int): int -> real
  {
    i => f(i, j)
  }

  /** Exchanging the order of a double sum: rows(i) sums f(i, _), cols(j) sums f(_, j). */
  lemma {:induction false} SumSwap(m: nat, n: nat, f: (int, int) -> real, rows: int -> real, cols: int -> real)
    requires forall i :: 0 <= i < m ==> rows(i) == Sum(n, RowOf(f, i))
    requires forall j :: 0 <= j < n ==> cols(j) == Sum(m, ColOf(f, j))
    ensures Sum(m, rows) == Sum(n, cols)
  {
    if m == 0 {
      SumZero(n, cols);
    } else {
      var prev := (j: int) => Sum(m - 1, ColOf(f, j));
      SumSwap(m - 1, n, f, rows, prev);
      forall j | 0 <= j < n ensures cols(j) == prev(j) + RowOf(f, m - 1)(j) {
      }
      SumAdd(n, prev, RowOf(f, m - 1), cols);
    }
  }

  lemma {:induction false} SumAdd(n: nat, f: int -> real, g: int -> real, h: int -> real)
    requires forall k :: 0 <= k < n ==> h(k) == f(k) + g(k)
    ensures Sum(n, h) == Sum(n, f) + Sum(n, g)
  {
    if n > 0 { SumAdd(n - 1, f, g, h); }
  }
}
