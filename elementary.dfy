/**
 * The row operations of Gauss-Jordan elimination as matrices.  Exchanging two rows,
 * multiplying a row by a factor and subtracting multiples of one row from the others each
 * commute with multiplication on the right, so each is multiplication on the left by the
 * operation applied to the identity, and each is undone by another operation of its kind.
 * Followed through every step of `rref`, this gives matrices T and U with rref(a) = T a,
 * a = U rref(a) and T U = U T = I, the facts `invert` rests on.
 */
module Elementary {
  import opened Sums
  import opened Layout
  import opened RowOps
  import opened Reduce
  import opened Echelon

  /** Entry (i, j) once row h is multiplied by c. */
  function Multiplied(a: seq<real>, m: nat, h: int, c: real, i: int, j: int): real
  {
    if i == h then Get(a, m, i, j) * c else Get(a, m, i, j)
  }

  function MultipliedF(a: seq<real>, m: nat, h: int, c: real): (int, int) -> real
  {
    (i, j) => Multiplied(a, m, h, c, i, j)
  }

  /** Row h multiplied by c; every other row kept. */
  function MultiplyRow(a: seq<real>, m: nat, n: nat, h: int, c: real): (res: seq<real>)
    ensures |res| == m * n
  {
    Build(m, n, MultipliedF(a, m, h, c))
  }

  lemma MultiplyRowGet(a: seq<real>, m: nat, n: nat, h: int, c: real)
    ensures forall i, j :: 0 <= i < m && 0 <= j < n ==> Get(MultiplyRow(a, m, n, h, c), m, i, j) == Multiplied(a, m, h, c, i, j)
  {
    BuildGet(m, n, MultipliedF(a, m, h, c));
  }

  /** Factor i of g, and 0.0 outside g. */
  function At(g: seq<real>, i: int): real
  {
    if 0 <= i < |g| then g[i] else 0.0
  }

  /** Entry (i, j) once every row other than h has lost g[i] times row h. */
  function Lessened(a: seq<real>, m: nat, h: int, g: seq<real>, i: int, j: int): real
  {
    if i != h then Get(a, m, i, j) - Get(a, m, h, j) * At(g, i) else Get(a, m, i, j)
  }

  function LessenedF(a: seq<real>, m: nat, h: int, g: seq<real>): (int, int) -> real
  {
    (i, j) => Lessened(a, m, h, g, i, j)
  }

  /** Every row i other than h loses g[i] times row h, in every column. */
  function SubtractRows(a: seq<real>, m: nat, n: nat, h: int, g: seq<real>): (res: seq<real>)
    ensures |res| == m * n
  {
    Build(m, n, LessenedF(a, m, h, g))
  }

  lemma SubtractRowsGet(a: seq<real>, m: nat, n: nat, h: int, g: seq<real>)
    ensures forall i, j :: 0 <= i < m && 0 <= j < n ==> Get(SubtractRows(a, m, n, h, g), m, i, j) == Lessened(a, m, h, g, i, j)
  {
    BuildGet(m, n, LessenedF(a, m, h, g));
  }

  /** The factors negated: subtracting them adds back what g took away. */
  function Negatives(g: seq<real>): (r: seq<real>)
    ensures |r| == |g| && forall i :: 0 <= i < |g| ==> r[i] == -g[i]
  {
    seq(|g|, i requires 0 <= i < |g| => -g[i])
  }

  // ------------------------------------------------ each operation commutes with a product

  /** Exchanging rows of a product is exchanging rows of its left factor. */
  lemma {:induction false} SwapLinear(x: seq<real>, y: seq<real>, m: nat, p: nat, q: nat, r: int, s: int)
    requires 0 <= r < m && 0 <= s < m
    ensures SwapRows(MatMul(x, y, m, p, q), m, q, r, s) == MatMul(SwapRows(x, m, p, r, s), y, m, p, q)
  {
    var xy := MatMul(x, y, m, p, q);
    var sx := SwapRows(x, m, p, r, s);
    var lhs := SwapRows(xy, m, q, r, s);
    var rhs := MatMul(sx, y, m, p, q);
    SwapRowsGet(xy, m, q, r, s);
    SwapRowsGet(x, m, p, r, s);
    MatMulEntries(x, y, m, p, q);
    MatMulEntries(sx, y, m, p, q);
    forall i, j | 0 <= i < m && 0 <= j < q ensures Get(lhs, m, i, j) == Get(rhs, m, i, j) {
      SwapEntry(x, y, sx, m, p, r, s, i, j);
    }
    Ext(lhs, rhs, m, q);
  }

  /** Entry (i, j) of SwapLinear. */
  lemma SwapEntry(x: seq<real>, y: seq<real>, sx: seq<real>, m: nat, p: nat, r: int, s: int, i: int, j: int)
    requires forall i, j :: 0 <= i < m && 0 <= j < p ==> Get(sx, m, i, j) == Swapped(x, m, r, s, i, j)
    requires 0 <= i < m && 0 <= r < m && 0 <= s < m
    ensures RowCol(sx, y, m, p, i, j) == RowCol(x, y, m, p, if i == r then s else if i == s then r else i, j)
  {
    var i' := if i == r then s else if i == s then r else i;
    forall t | 0 <= t < p ensures Term(sx, y, m, p, i, j)(t) == Term(x, y, m, p, i', j)(t) {
      assert Get(sx, m, i, t) == Get(x, m, i', t);
    }
    SumExt(p, Term(sx, y, m, p, i, j), Term(x, y, m, p, i', j));
  }

  /** Multiplying a row of a product is multiplying that row of its left factor. */
  lemma {:induction false} MultiplyLinear(x: seq<real>, y: seq<real>, m: nat, p: nat, q: nat, h: int, c: real)
    ensures MultiplyRow(MatMul(x, y, m, p, q), m, q, h, c) == MatMul(MultiplyRow(x, m, p, h, c), y, m, p, q)
  {
    var xy := MatMul(x, y, m, p, q);
    var cx := MultiplyRow(x, m, p, h, c);
    var lhs := MultiplyRow(xy, m, q, h, c);
    var rhs := MatMul(cx, y, m, p, q);
    MultiplyRowGet(xy, m, q, h, c);
    MultiplyRowGet(x, m, p, h, c);
    MatMulEntries(x, y, m, p, q);
    MatMulEntries(cx, y, m, p, q);
    forall i, j | 0 <= i < m && 0 <= j < q ensures Get(lhs, m, i, j) == Get(rhs, m, i, j) {
      MultiplyEntry(x, y, cx, m, p, h, c, i, j);
    }
    Ext(lhs, rhs, m, q);
  }

  /** Entry (i, j) of MultiplyLinear. */
  lemma MultiplyEntry(x: seq<real>, y: seq<real>, cx: seq<real>, m: nat, p: nat, h: int, c: real, i: int, j: int)
    requires forall i, j :: 0 <= i < m && 0 <= j < p ==> Get(cx, m, i, j) == Multiplied(x, m, h, c, i, j)
    requires 0 <= i < m
    ensures RowCol(cx, y, m, p, i, j) == if i == h then RowCol(x, y, m, p, i, j) * c else RowCol(x, y, m, p, i, j)
  {
    if i == h {
      forall t | 0 <= t < p ensures Term(cx, y, m, p, i, j)(t) == Term(x, y, m, p, i, j)(t) * c {
        assert Get(cx, m, i, t) == Get(x, m, i, t) * c;
      }
      SumScaleRight(p, Term(x, y, m, p, i, j), c, Term(cx, y, m, p, i, j));
    } else {
      forall t | 0 <= t < p ensures Term(cx, y, m, p, i, j)(t) == Term(x, y, m, p, i, j)(t) {
        assert Get(cx, m, i, t) == Get(x, m, i, t);
      }
      SumExt(p, Term(cx, y, m, p, i, j), Term(x, y, m, p, i, j));
    }
  }

  /** Subtracting multiples of a row of a product is doing so in its left factor. */
  lemma {:induction false} SubtractLinear(x: seq<real>, y: seq<real>, m: nat, p: nat, q: nat, h: int, g: seq<real>)
    requires 0 <= h < m
    ensures SubtractRows(MatMul(x, y, m, p, q), m, q, h, g) == MatMul(SubtractRows(x, m, p, h, g), y, m, p, q)
  {
    var xy := MatMul(x, y, m, p, q);
    var gx := SubtractRows(x, m, p, h, g);
    var lhs := SubtractRows(xy, m, q, h, g);
    var rhs := MatMul(gx, y, m, p, q);
    SubtractRowsGet(xy, m, q, h, g);
    SubtractRowsGet(x, m, p, h, g);
    MatMulEntries(x, y, m, p, q);
    MatMulEntries(gx, y, m, p, q);
    forall i, j | 0 <= i < m && 0 <= j < q ensures Get(lhs, m, i, j) == Get(rhs, m, i, j) {
      SubtractEntry(x, y, gx, m, p, h, g, i, j);
    }
    Ext(lhs, rhs, m, q);
  }

  /** Entry (i, j) of SubtractLinear. */
  lemma SubtractEntry(x: seq<real>, y: seq<real>, gx: seq<real>, m: nat, p: nat, h: int, g: seq<real>, i: int, j: int)
    requires forall i, j :: 0 <= i < m && 0 <= j < p ==> Get(gx, m, i, j) == Lessened(x, m, h, g, i, j)
    requires 0 <= h < m && 0 <= i < m
    ensures RowCol(gx, y, m, p, i, j) ==
      if i != h then RowCol(x, y, m, p, i, j) - RowCol(x, y, m, p, h, j) * At(g, i) else RowCol(x, y, m, p, i, j)
  {
    if i != h {
      SubtractTerms(x, y, gx, m, p, h, At(g, i), i, j);
      SubtractRowEntry(x, y, gx, m, p, h, At(g, i), i, j);
    } else {
      forall t | 0 <= t < p ensures Term(gx, y, m, p, i, j)(t) == Term(x, y, m, p, i, j)(t) {
        assert Get(gx, m, i, t) == Get(x, m, i, t);
      }
      SumExt(p, Term(gx, y, m, p, i, j), Term(x, y, m, p, i, j));
    }
  }

  /** Each term of row i of gx times y is that of x less f times that of row h: so is their sum. */
  lemma SubtractRowEntry(x: seq<real>, y: seq<real>, gx: seq<real>, m: nat, p: nat, h: int, f: real, i: int, j: int)
    requires forall t :: 0 <= t < p ==>
      Term(gx, y, m, p, i, j)(t) == Term(x, y, m, p, i, j)(t) - Term(x, y, m, p, h, j)(t) * f
    ensures RowCol(gx, y, m, p, i, j) == RowCol(x, y, m, p, i, j) - RowCol(x, y, m, p, h, j) * f
  {
    SumLessened(p, Term(x, y, m, p, i, j), Term(x, y, m, p, h, j), f, Term(gx, y, m, p, i, j));
  }

  /** A sum of f - g*c is the sum of f less c times the sum of g. */
  lemma {:induction false} SumLessened(n: nat, f: int -> real, g: int -> real, c: real, h: int -> real)
    requires forall k :: 0 <= k < n ==> h(k) == f(k) - g(k) * c
    ensures Sum(n, h) == Sum(n, f) - Sum(n, g) * c
  {
    if n > 0 { SumLessened(n - 1, f, g, c, h); }
  }

  /** The terms of SubtractRowEntry, one by one. */
  lemma SubtractTerms(x: seq<real>, y: seq<real>, gx: seq<real>, m: nat, p: nat, h: int, f: real, i: int, j: int)
    requires forall t :: 0 <= t < p ==> Get(gx, m, i, t) == Get(x, m, i, t) - Get(x, m, h, t) * f
    ensures forall t :: 0 <= t < p ==>
      Term(gx, y, m, p, i, j)(t) == Term(x, y, m, p, i, j)(t) - Term(x, y, m, p, h, j)(t) * f
  {
    var tg, ti, th := Term(gx, y, m, p, i, j), Term(x, y, m, p, i, j), Term(x, y, m, p, h, j);
    forall t | 0 <= t < p ensures tg(t) == ti(t) - th(t) * f {
      Distribute(Get(x, m, i, t), Get(x, m, h, t), f, Get(y, p, t, j));
    }
  }

  lemma Distribute(a: real, b: real, f: real, c: real)
    ensures (a - b * f) * c == a * c - (b * c) * f
  {
  }

  // ------------------------------------------------ each operation is undone by one of its kind

  lemma SwapTwice(a: seq<real>, m: nat, n: nat, r: int, s: int)
    requires |a| == m * n && 0 <= r < m && 0 <= s < m
    ensures SwapRows(SwapRows(a, m, n, r, s), m, n, r, s) == a
  {
    var b := SwapRows(a, m, n, r, s);
    SwapRowsGet(a, m, n, r, s);
    SwapRowsGet(b, m, n, r, s);
    Ext(SwapRows(b, m, n, r, s), a, m, n);
  }

  lemma MultiplyUndone(a: seq<real>, m: nat, n: nat, h: int, c: real)
    requires |a| == m * n && c != 0.0
    ensures MultiplyRow(MultiplyRow(a, m, n, h, c), m, n, h, 1.0 / c) == a
    ensures MultiplyRow(MultiplyRow(a, m, n, h, 1.0 / c), m, n, h, c) == a
  {
    var b := MultiplyRow(a, m, n, h, c);
    var d := MultiplyRow(a, m, n, h, 1.0 / c);
    MultiplyRowGet(a, m, n, h, c);
    MultiplyRowGet(a, m, n, h, 1.0 / c);
    MultiplyRowGet(b, m, n, h, 1.0 / c);
    MultiplyRowGet(d, m, n, h, c);
    forall i, j | 0 <= i < m && 0 <= j < n
      ensures Get(MultiplyRow(b, m, n, h, 1.0 / c), m, i, j) == Get(a, m, i, j)
      ensures Get(MultiplyRow(d, m, n, h, c), m, i, j) == Get(a, m, i, j)
    {
      if i == h {
        var x := Get(a, m, i, j);
        assert x * c * (1.0 / c) == x;
        assert x * (1.0 / c) * c == x;
      }
    }
    Ext(MultiplyRow(b, m, n, h, 1.0 / c), a, m, n);
    Ext(MultiplyRow(d, m, n, h, c), a, m, n);
  }

  lemma SubtractUndone(a: seq<real>, m: nat, n: nat, h: int, g: seq<real>)
    requires |a| == m * n && 0 <= h < m
    ensures SubtractRows(SubtractRows(a, m, n, h, g), m, n, h, Negatives(g)) == a
    ensures SubtractRows(SubtractRows(a, m, n, h, Negatives(g)), m, n, h, g) == a
  {
    var ng := Negatives(g);
    var b := SubtractRows(a, m, n, h, g);
    var d := SubtractRows(a, m, n, h, ng);
    SubtractRowsGet(a, m, n, h, g);
    SubtractRowsGet(a, m, n, h, ng);
    SubtractRowsGet(b, m, n, h, ng);
    SubtractRowsGet(d, m, n, h, g);
    forall i, j | 0 <= i < m && 0 <= j < n
      ensures Get(SubtractRows(b, m, n, h, ng), m, i, j) == Get(a, m, i, j)
      ensures Get(SubtractRows(d, m, n, h, g), m, i, j) == Get(a, m, i, j)
    {
      assert Get(b, m, h, j) == Get(a, m, h, j) && Get(d, m, h, j) == Get(a, m, h, j);
      assert At(ng, i) == -At(g, i);
    }
    Ext(SubtractRows(b, m, n, h, ng), a, m, n);
    Ext(SubtractRows(d, m, n, h, g), a, m, n);
  }

  // ------------------------------------------------ left multiplication with an inverse

  /**
   * y is x multiplied on the left by S, x is y multiplied on the left by G, and S and G are
   * inverse to each other: S G = G S = I.
   */
  predicate Transforms(S: seq<real>, G: seq<real>, x: seq<real>, y: seq<real>, m: nat, n: nat)
  {
    |S| == m * m && |G| == m * m && |x| == m * n && |y| == m * n &&
    y == MatMul(S, x, m, m, n) && x == MatMul(G, y, m, m, n) &&
    MatMul(S, G, m, m, m) == Identity(m) && MatMul(G, S, m, m, m) == Identity(m)
  }

  /** Doing nothing is multiplying by the identity. */
  lemma Unchanged(x: seq<real>, m: nat, n: nat)
    requires |x| == m * n
    ensures Transforms(Identity(m), Identity(m), x, x, m, n)
  {
    MulIdentityLeft(x, m, n);
    MulIdentityLeft(Identity(m), m, m);
  }

  /** One operation after another is the product of their matrices, undone in reverse order. */
  lemma Compose(S1: seq<real>, G1: seq<real>, S2: seq<real>, G2: seq<real>, x: seq<real>, y: seq<real>, z: seq<real>, m: nat, n: nat)
    requires Transforms(S1, G1, x, y, m, n) && Transforms(S2, G2, y, z, m, n)
    ensures Transforms(MatMul(S2, S1, m, m, m), MatMul(G1, G2, m, m, m), x, z, m, n)
  {
    MulAssoc(S2, S1, x, m, m, m, n);
    MulAssoc(G1, G2, z, m, m, m, n);
    var S, G := MatMul(S2, S1, m, m, m), MatMul(G1, G2, m, m, m);
    MulAssoc(S2, S1, G, m, m, m, m);
    MulAssoc(S1, G1, G2, m, m, m, m);
    MulIdentityLeft(G2, m, m);
    MulAssoc(G1, G2, S, m, m, m, m);
    MulAssoc(G2, S2, S1, m, m, m, m);
    MulIdentityLeft(S1, m, m);
  }

  lemma SwapTransforms(x: seq<real>, m: nat, n: nat, r: int, s: int)
    requires |x| == m * n && 0 <= r < m && 0 <= s < m
    ensures var P := SwapRows(Identity(m), m, m, r, s); Transforms(P, P, x, SwapRows(x, m, n, r, s), m, n)
  {
    var I := Identity(m);
    var P := SwapRows(I, m, m, r, s);
    var y := SwapRows(x, m, n, r, s);
    SwapLinear(I, x, m, m, n, r, s);
    MulIdentityLeft(x, m, n);
    SwapLinear(I, y, m, m, n, r, s);
    MulIdentityLeft(y, m, n);
    SwapTwice(x, m, n, r, s);
    SwapLinear(I, P, m, m, m, r, s);
    MulIdentityLeft(P, m, m);
    SwapTwice(I, m, m, r, s);
  }

  lemma MultiplyTransforms(x: seq<real>, m: nat, n: nat, h: int, c: real)
    requires |x| == m * n && c != 0.0
    ensures Transforms(MultiplyRow(Identity(m), m, m, h, c), MultiplyRow(Identity(m), m, m, h, 1.0 / c), x, MultiplyRow(x, m, n, h, c), m, n)
  {
    var I := Identity(m);
    var S, G := MultiplyRow(I, m, m, h, c), MultiplyRow(I, m, m, h, 1.0 / c);
    var y := MultiplyRow(x, m, n, h, c);
    MultiplyLinear(I, x, m, m, n, h, c);
    MulIdentityLeft(x, m, n);
    MultiplyLinear(I, y, m, m, n, h, 1.0 / c);
    MulIdentityLeft(y, m, n);
    MultiplyUndone(x, m, n, h, c);
    MultiplyLinear(I, G, m, m, m, h, c);
    MulIdentityLeft(G, m, m);
    MultiplyLinear(I, S, m, m, m, h, 1.0 / c);
    MulIdentityLeft(S, m, m);
    MultiplyUndone(I, m, m, h, c);
  }

  lemma SubtractTransforms(x: seq<real>, m: nat, n: nat, h: int, g: seq<real>)
    requires |x| == m * n && 0 <= h < m
    ensures Transforms(SubtractRows(Identity(m), m, m, h, g), SubtractRows(Identity(m), m, m, h, Negatives(g)), x, SubtractRows(x, m, n, h, g), m, n)
  {
    var I := Identity(m);
    var S, G := SubtractRows(I, m, m, h, g), SubtractRows(I, m, m, h, Negatives(g));
    var y := SubtractRows(x, m, n, h, g);
    SubtractLinear(I, x, m, m, n, h, g);
    MulIdentityLeft(x, m, n);
    SubtractLinear(I, y, m, m, n, h, Negatives(g));
    MulIdentityLeft(y, m, n);
    SubtractUndone(x, m, n, h, g);
    SubtractLinear(I, G, m, m, m, h, g);
    MulIdentityLeft(G, m, m);
    SubtractLinear(I, S, m, m, m, h, Negatives(g));
    MulIdentityLeft(S, m, m);
    SubtractUndone(I, m, m, h, g);
  }

  // ------------------------------------------------ the steps of `rref`

  /** Row h is zero in the columns left of k. */
  predicate ZeroLeft(a: seq<real>, m: nat, h: int, k: int)
  {
    forall j :: 0 <= j < k ==> Get(a, m, h, j) == 0.0
  }

  /** With row h zero left of k, dividing its tail by p divides the whole row. */
  lemma DivideWholeRow(a: seq<real>, m: nat, n: nat, h: int, k: int, p: real)
    requires |a| == m * n && p != 0.0 && ZeroLeft(a, m, h, k)
    ensures DivideRowFrom(a, m, n, h, k, p) == MultiplyRow(a, m, n, h, 1.0 / p)
  {
    DivideRowFromGet(a, m, n, h, k, p);
    MultiplyRowGet(a, m, n, h, 1.0 / p);
    forall i, j | 0 <= i < m && 0 <= j < n
      ensures Get(DivideRowFrom(a, m, n, h, k, p), m, i, j) == Get(MultiplyRow(a, m, n, h, 1.0 / p), m, i, j)
    {
      var x := Get(a, m, i, j);
      assert x / p == x * (1.0 / p);
    }
    Ext(DivideRowFrom(a, m, n, h, k, p), MultiplyRow(a, m, n, h, 1.0 / p), m, n);
  }

  /** The multipliers the elimination loop of `rref` uses against pivot (h, k). */
  function Factors(a: seq<real>, m: nat, h: int, k: int): (g: seq<real>)
    requires Get(a, m, h, k) != 0.0
    ensures |g| == m && forall i :: 0 <= i < m ==> g[i] == Factor(a, m, h, k, i)
  {
    seq(m, i => Factor(a, m, h, k, i))
  }

  /** With row h zero left of k, clearing column k subtracts whole multiples of row h. */
  lemma EliminateWholeRows(a: seq<real>, m: nat, n: nat, h: int, k: int)
    requires |a| == m * n && 0 <= h < m && Get(a, m, h, k) != 0.0 && ZeroLeft(a, m, h, k)
    ensures Eliminate(a, m, n, h, k, 0, m) == SubtractRows(a, m, n, h, Factors(a, m, h, k))
  {
    var g := Factors(a, m, h, k);
    EliminateGet(a, m, n, h, k, 0, m);
    SubtractRowsGet(a, m, n, h, g);
    forall i, j | 0 <= i < m && 0 <= j < n
      ensures Get(Eliminate(a, m, n, h, k, 0, m), m, i, j) == Get(SubtractRows(a, m, n, h, g), m, i, j)
    {
      assert At(g, i) == Factor(a, m, h, k, i);
    }
    Ext(Eliminate(a, m, n, h, k, 0, m), SubtractRows(a, m, n, h, g), m, n);
  }

  /** The row exchange of an `rref` step, when it happens, as a matrix. */
  lemma ExchangeTransforms(a: seq<real>, m: nat, n: nat, h: int, r: int) returns (S: seq<real>, G: seq<real>)
    requires |a| == m * n && 0 <= h < m && 0 <= r < m
    ensures Transforms(S, G, a, Exchange(a, m, n, h, r), m, n)
  {
    if r != h {
      SwapTransforms(a, m, n, r, h);
      S, G := SwapRows(Identity(m), m, m, r, h), SwapRows(Identity(m), m, m, r, h);
    } else {
      Unchanged(a, m, n);
      S, G := Identity(m), Identity(m);
    }
  }

  /**
   * One pivoting step of `rref` at row h, column k, is multiplication by an invertible
   * matrix, provided rows h.. are zero left of column k, as they are during the reduction.
   */
  lemma RrefStepTransforms(a: seq<real>, m: nat, n: nat, h: int, k: int, r: int) returns (S: seq<real>, G: seq<real>)
    requires |a| == m * n && 0 <= h < m && h <= r < m && 0 <= k < n && Get(a, m, r, k) != 0.0
    requires forall i, j :: h <= i < m && 0 <= j < k ==> Get(a, m, i, j) == 0.0
    ensures Transforms(S, G, a, RrefStep(a, m, n, h, k, r), m, n)
  {
    var a1 := Exchange(a, m, n, h, r);
    ExchangeGet(a, m, n, h, r);
    var S1, G1 := ExchangeTransforms(a, m, n, h, r);
    var p := Get(a1, m, h, k);
    assert ZeroLeft(a1, m, h, k) by {
      forall j | 0 <= j < k ensures Get(a1, m, h, j) == 0.0 {
        assert Get(a1, m, h, j) == Get(a, m, r, j);
      }
    }
    var a2 := DivideRowFrom(a1, m, n, h, k, p);
    DivideWholeRow(a1, m, n, h, k, p);
    MultiplyTransforms(a1, m, n, h, 1.0 / p);
    var S2, G2 := MultiplyRow(Identity(m), m, m, h, 1.0 / p), MultiplyRow(Identity(m), m, m, h, 1.0 / (1.0 / p));
    DividedPivot(a1, m, n, h, k);
    assert ZeroLeft(a2, m, h, k) by {
      DivideRowFromGet(a1, m, n, h, k, p);
      forall j | 0 <= j < k ensures Get(a2, m, h, j) == 0.0 {
        assert Get(a2, m, h, j) == Divided(a1, m, h, k, p, h, j);
      }
    }
    var g := Factors(a2, m, h, k);
    EliminateWholeRows(a2, m, n, h, k);
    SubtractTransforms(a2, m, n, h, g);
    var S3, G3 := SubtractRows(Identity(m), m, m, h, g), SubtractRows(Identity(m), m, m, h, Negatives(g));
    assert RrefStep(a, m, n, h, k, r) == Eliminate(a2, m, n, h, k, 0, m);
    Compose(S1, G1, S2, G2, a, a1, a2, m, n);
    Compose(MatMul(S2, S1, m, m, m), MatMul(G1, G2, m, m, m), S3, G3, a, a2, RrefStep(a, m, n, h, k, r), m, n);
    S, G := MatMul(S3, MatMul(S2, S1, m, m, m), m, m, m), MatMul(MatMul(G1, G2, m, m, m), G3, m, m, m);
  }

  /** The rest of a Gauss-Jordan run, from a partially reduced state, is multiplication by an invertible matrix. */
  lemma {:induction false} RrefLoopTransforms(a: seq<real>, m: nat, n: nat, h: nat, k: nat, ds: real, sw: nat, piv: seq<int>, vals: seq<real>)
    returns (T: seq<real>, U: seq<real>)
    requires RrefUpTo(a, m, n, h, k, piv)
    decreases n - k, 1
    ensures Transforms(T, U, a, RrefLoop(a, m, n, h, k, ds, sw, piv, vals).mat, m, n)
  {
    if !(k < n && h < m) {
      Unchanged(a, m, n);
      T, U := Identity(m), Identity(m);
    } else if Get(a, m, PivotRow(a, m, k, h), k) == 0.0 {
      RrefSkip(a, m, n, h, k, piv);
      T, U := RrefLoopTransforms(a, m, n, h, k + 1, ds, sw, piv, vals);
    } else {
      T, U := RrefPivotTransforms(a, m, n, h, k, ds, sw, piv, vals);
    }
  }

  /** The pivoting case of RrefLoopTransforms. */
  lemma {:induction false} RrefPivotTransforms(a: seq<real>, m: nat, n: nat, h: nat, k: nat, ds: real, sw: nat, piv: seq<int>, vals: seq<real>)
    returns (T: seq<real>, U: seq<real>)
    requires RrefUpTo(a, m, n, h, k, piv) && k < n && h < m
    requires Get(a, m, PivotRow(a, m, k, h), k) != 0.0
    decreases n - k, 0
    ensures Transforms(T, U, a, RrefLoop(a, m, n, h, k, ds, sw, piv, vals).mat, m, n)
  {
    var r := PivotRow(a, m, k, h);
    var p := Get(a, m, r, k);
    var ds1 := (if r != h then ds * -1.0 else ds) / p;
    var sw1 := if r != h then sw + 1 else sw;
    var a3 := RrefStep(a, m, n, h, k, r);
    var S, G := RrefStepTransforms(a, m, n, h, k, r);
    RrefStepShape(a, m, n, h, k, piv, r);
    var T1, U1 := RrefLoopTransforms(a3, m, n, h + 1, k + 1, ds1, sw1, piv + [k], vals + [p]);
    var res := RrefLoop(a3, m, n, h + 1, k + 1, ds1, sw1, piv + [k], vals + [p]).mat;
    Compose(S, G, T1, U1, a, a3, res, m, n);
    T, U := MatMul(T1, S, m, m, m), MatMul(G, U1, m, m, m);
    RrefStepUnfold(a, m, n, h, k, r, p, ds, ds1, sw, piv, vals);
  }

  /**
   * `rref` multiplies its matrix on the left by an invertible matrix: rref(a) = T a and
   * a = U rref(a), with T U = U T = I.
   */
  lemma RrefTransforms(a: seq<real>, m: nat, n: nat) returns (T: seq<real>, U: seq<real>)
    requires |a| == m * n
    ensures Transforms(T, U, a, Rref(a, m, n).mat, m, n)
  {
    T, U := RrefLoopTransforms(a, m, n, 0, 0, 1.0, 0, [], []);
  }
}
