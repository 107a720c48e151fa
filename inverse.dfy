/**
 * `invert` of matrix.js: the n x n matrix a is augmented with the n x n identity to the
 * n x 2n matrix [a | I] (in column-major order the identity's columns simply follow a's),
 * Gauss-Jordan elimination reduces it, and the right block is kept.
 */
module Inverse {
  import opened Sums
  import opened Layout
  import opened Reduce
  import opened Echelon
  import opened Elementary

  /** The buffer `invert` leaves behind: the right n x n block of rref([a | I]). */
  function Inverted(a: seq<real>, n: nat): (r: seq<real>)
    requires |a| == n * n
    ensures |r| == n * n
  {
    assert n * (2 * n) == n * n + n * n;
    Rref(a + Identity(n), n, 2 * n).mat[n * n..]
  }

  /** Entry x = r + n*c of the n x n identity is 1 exactly when r == c. */
  lemma IdentityAt(n: nat, x: nat)
    requires x < n * n
    ensures Identity(n)[x] == if x % n == x / n then 1.0 else 0.0
  {
    IndexOf(n, n, x);
    IdentityGet(n);
    assert Identity(n)[x] == Get(Identity(n), n, x % n, x / n);
  }

  /** Position c*(n+1) lies strictly between (i-1)*(n+1) and i*(n+1) for no c. */
  lemma NoDiagonalBetween(n: nat, i: nat, c: nat)
    requires (i > 0 ==> (i - 1) * (n + 1) < c * (n + 1)) && c * (n + 1) <= i * (n + 1)
    ensures c == i
  {
    if c < i {
      MulMono(n + 1, c, i - 1);
    } else if c > i {
      MulMono(n + 1, i + 1, c);
    }
  }

  /**
   * The push loop of `invert` has pushed j entries with i diagonal positions among them
   * (the diagonal positions of an n x n buffer are i*(n+1)): entry j of the identity is 1
   * exactly when j is the next diagonal position i*n + i.
   */
  lemma IdentityEntry(n: nat, i: nat, j: nat)
    requires j < n * n && j <= i * (n + 1) && (i > 0 ==> (i - 1) * (n + 1) < j)
    ensures Identity(n)[j] == if j == i * n + i then 1.0 else 0.0
    ensures j == i * n + i ==> i < n
  {
    IdentityAt(n, j);
    IndexOf(n, n, j);
    var r, c := j % n, j / n;
    if j == i * n + i {
      if i >= n {
        MulMono(n + 1, n, i);
        assert false;
      }
      IndexSplit(n, i, i);
    } else if r == c {
      assert j == c * (n + 1);
      NoDiagonalBetween(n, i, c);
      assert false;
    }
  }

  /**
   * One iteration of the push loop of `invert`: the entry pushed extends the prefix of the
   * identity, and the count of diagonal positions passed stays in step.
   */
  lemma IdentityPush(n: nat, i: nat, j: nat)
    requires j < n * n && j <= i * (n + 1) && (i > 0 ==> (i - 1) * (n + 1) < j)
    ensures var diag := j == i * n + i;
      var i' := if diag then i + 1 else i;
      Identity(n)[..j + 1] == Identity(n)[..j] + [if diag then 1.0 else 0.0] &&
      i' * (n + 1) >= j + 1 && (i' > 0 ==> (i' - 1) * (n + 1) < j + 1)
  {
    IdentityEntry(n, i, j);
    assert Identity(n)[..j + 1] == Identity(n)[..j] + [Identity(n)[j]];
    assert (i + 1) * (n + 1) == i * (n + 1) + n + 1;
  }

  // ------------------------------------------------ what the right block is

  /** b is a two-sided inverse of the n x n matrix a. */
  predicate InverseOf(b: seq<real>, a: seq<real>, n: nat)
  {
    |a| == n * n && |b| == n * n &&
    MatMul(a, b, n, n, n) == Identity(n) && MatMul(b, a, n, n, n) == Identity(n)
  }

  /** The n x n matrix a has a right inverse. */
  ghost predicate Invertible(a: seq<real>, n: nat)
  {
    exists c :: |c| == n * n && MatMul(a, c, n, n, n) == Identity(n)
  }

  /** The left n x n block of an n x 2n matrix: its first n columns. */
  function LeftBlock(r: seq<real>, n: nat): (l: seq<real>)
    requires |r| == n * (2 * n)
    ensures |l| == n * n
    ensures forall i, j :: 0 <= i < n && 0 <= j < n ==> Get(l, n, i, j) == Get(r, n, i, j)
  {
    assert n * (2 * n) == n * n + n * n;
    var l := r[..n * n];
    forall i, j | 0 <= i < n && 0 <= j < n ensures Get(l, n, i, j) == Get(r, n, i, j) {
      IndexBound(n, n, i, j);
    }
    l
  }

  /** The right n x n block of an n x 2n matrix: its last n columns. */
  function RightBlock(r: seq<real>, n: nat): (b: seq<real>)
    requires |r| == n * (2 * n)
    ensures |b| == n * n
    ensures forall i, j :: 0 <= i < n && 0 <= j < n ==> Get(b, n, i, j) == Get(r, n, i, j + n)
  {
    assert n * (2 * n) == n * n + n * n;
    var b := r[n * n..];
    forall i, j | 0 <= i < n && 0 <= j < n ensures Get(b, n, i, j) == Get(r, n, i, j + n) {
      IndexBound(n, n, i, j);
      IndexBound(n, 2 * n, i, j + n);
      assert n * (j + n) == n * j + n * n;
    }
    b
  }

  /** The matrix `invert` hands to `rref`: a with the identity's columns after its own. */
  function Augmented(a: seq<real>, n: nat): (r: seq<real>)
    requires |a| == n * n
    ensures |r| == n * (2 * n) && LeftBlock(r, n) == a && RightBlock(r, n) == Identity(n)
  {
    assert n * (2 * n) == n * n + n * n;
    a + Identity(n)
  }

  /** rref of the augmented matrix; `invert` keeps its right block. */
  function Reduced(a: seq<real>, n: nat): (r: seq<real>)
    requires |a| == n * n
    ensures |r| == n * (2 * n) && RightBlock(r, n) == Inverted(a, n)
  {
    Rref(Augmented(a, n), n, 2 * n).mat
  }

  /** Multiplying on the left acts on each block of an n x 2n matrix separately. */
  lemma {:induction false} ProductBlocks(x: seq<real>, y: seq<real>, n: nat)
    requires |x| == n * n && |y| == n * (2 * n)
    ensures |MatMul(x, y, n, n, 2 * n)| == n * (2 * n)
    ensures LeftBlock(MatMul(x, y, n, n, 2 * n), n) == MatMul(x, LeftBlock(y, n), n, n, n)
    ensures RightBlock(MatMul(x, y, n, n, 2 * n), n) == MatMul(x, RightBlock(y, n), n, n, n)
  {
    var xy := MatMul(x, y, n, n, 2 * n);
    var ly, ry := LeftBlock(y, n), RightBlock(y, n);
    MatMulEntries(x, y, n, n, 2 * n);
    MatMulEntries(x, ly, n, n, n);
    MatMulEntries(x, ry, n, n, n);
    forall i, j | 0 <= i < n && 0 <= j < n
      ensures Get(LeftBlock(xy, n), n, i, j) == Get(MatMul(x, ly, n, n, n), n, i, j)
      ensures Get(RightBlock(xy, n), n, i, j) == Get(MatMul(x, ry, n, n, n), n, i, j)
    {
      forall t | 0 <= t < n
        ensures Term(x, ly, n, n, i, j)(t) == Term(x, y, n, n, i, j)(t)
        ensures Term(x, ry, n, n, i, j)(t) == Term(x, y, n, n, i, j + n)(t)
      {
      }
      SumExt(n, Term(x, ly, n, n, i, j), Term(x, y, n, n, i, j));
      SumExt(n, Term(x, ry, n, n, i, j), Term(x, y, n, n, i, j + n));
    }
    Ext(LeftBlock(xy, n), MatMul(x, ly, n, n, n), n, n);
    Ext(RightBlock(xy, n), MatMul(x, ry, n, n, n), n, n);
  }

  /**
   * The reduction of [a | I] is a multiplication on the left by T with inverse U, so with L
   * the left block of the result: L = T a, the right block is T itself, a = U L and U T = I.
   */
  lemma ReducedFactors(a: seq<real>, n: nat) returns (T: seq<real>, U: seq<real>)
    requires |a| == n * n
    ensures |T| == n * n && |U| == n * n && Inverted(a, n) == T
    ensures LeftBlock(Reduced(a, n), n) == MatMul(T, a, n, n, n)
    ensures a == MatMul(U, LeftBlock(Reduced(a, n), n), n, n, n)
    ensures MatMul(T, U, n, n, n) == Identity(n) && MatMul(U, T, n, n, n) == Identity(n)
  {
    var aug, red := Augmented(a, n), Reduced(a, n);
    T, U := RrefTransforms(aug, n, 2 * n);
    ProductBlocks(T, aug, n);
    ProductBlocks(U, red, n);
    MulIdentityRight(T, n, n);
  }

  /** When the left block reduces to the identity, the right block is a two-sided inverse. */
  lemma LeftIdentityInverse(a: seq<real>, n: nat)
    requires |a| == n * n && LeftBlock(Reduced(a, n), n) == Identity(n)
    ensures InverseOf(Inverted(a, n), a, n)
  {
    var T, U := ReducedFactors(a, n);
    MulIdentityRight(U, n, n);
  }

  /** Row i of a product whose left factor has a zero row i is zero. */
  lemma ZeroRowProduct(x: seq<real>, y: seq<real>, n: nat, i: int)
    requires 0 <= i < n && forall j :: 0 <= j < n ==> Get(x, n, i, j) == 0.0
    ensures forall j :: 0 <= j < n ==> Get(MatMul(x, y, n, n, n), n, i, j) == 0.0
  {
    MatMulEntries(x, y, n, n, n);
    forall j | 0 <= j < n ensures Get(MatMul(x, y, n, n, n), n, i, j) == 0.0 {
      SumZero(n, Term(x, y, n, n, i, j));
    }
  }

  /** A matrix with a zero row has no right inverse. */
  lemma ZeroRowSingular(x: seq<real>, y: seq<real>, n: nat, i: int)
    requires 0 <= i < n && forall j :: 0 <= j < n ==> Get(x, n, i, j) == 0.0
    ensures MatMul(x, y, n, n, n) != Identity(n)
  {
    ZeroRowProduct(x, y, n, i);
    IdentityGet(n);
    assert Get(MatMul(x, y, n, n, n), n, i, i) == 0.0;
  }

  /** Strictly increasing pivot columns, the last one at most b, leave pivot t at most b - (last - t). */
  lemma {:induction false} PivotsBelow(piv: seq<int>, t: int, b: int)
    requires 0 <= t < |piv| && piv[|piv| - 1] <= b
    requires forall s, u :: 0 <= s < u < |piv| ==> piv[s] < piv[u]
    decreases |piv| - t
    ensures piv[t] <= b - (|piv| - 1 - t)
  {
    if t < |piv| - 1 {
      PivotsBelow(piv, t + 1, b);
    }
  }

  /**
   * If a has a right inverse c, the left block reduces to the identity: otherwise its last
   * row would be zero, and so would the last row of T = L c, which has the inverse U.
   */
  lemma {:induction false} RightInverseLeftIdentity(a: seq<real>, c: seq<real>, n: nat)
    requires |a| == n * n && |c| == n * n && MatMul(a, c, n, n, n) == Identity(n)
    ensures LeftBlock(Reduced(a, n), n) == Identity(n)
  {
    var T, U := ReducedFactors(a, n);
    var red := Reduced(a, n);
    var L := LeftBlock(red, n);
    if n > 0 {
      MulAssoc(T, a, c, n, n, n, n);
      MulIdentityRight(T, n, n);
      assert MatMul(L, c, n, n, n) == T;
      var piv := Rref(Augmented(a, n), n, 2 * n).pivots;
      RrefShape(Augmented(a, n), n, 2 * n);
      assert IsRref(red, n, 2 * n, piv);
      var last := n - 1;
      if forall j :: 0 <= j < n ==> Get(L, n, last, j) == 0.0 {
        ZeroRowProduct(L, c, n, last);
        ZeroRowSingular(T, U, n, last);
        assert false;
      }
      var j :| 0 <= j < n && Get(L, n, last, j) != 0.0;
      assert |piv| == n;
      assert piv[n - 1] <= j;
      forall t | 0 <= t < n ensures piv[t] == t {
        PivotsBelow(piv, t, n - 1);
      }
      IdentityGet(n);
      forall i, t | 0 <= i < n && 0 <= t < n ensures Get(L, n, i, t) == Get(Identity(n), n, i, t) {
        assert Get(red, n, i, piv[t]) == if i == t then 1.0 else 0.0;
      }
      Ext(L, Identity(n), n, n);
    }
  }

  /**
   * What `invert` computes: the right block of rref([a | I]) is a two-sided inverse of a
   * exactly when a has a right inverse, which is exactly when the left block reduces to the
   * identity.
   */
  lemma InvertedInverse(a: seq<real>, n: nat)
    requires |a| == n * n
    ensures Invertible(a, n) <==> InverseOf(Inverted(a, n), a, n)
    ensures LeftBlock(Reduced(a, n), n) == Identity(n) <==> InverseOf(Inverted(a, n), a, n)
  {
    if Invertible(a, n) {
      var c :| |c| == n * n && MatMul(a, c, n, n, n) == Identity(n);
      RightInverseLeftIdentity(a, c, n);
      LeftIdentityInverse(a, n);
    }
    if InverseOf(Inverted(a, n), a, n) {
      RightInverseLeftIdentity(a, Inverted(a, n), n);
    }
    if LeftBlock(Reduced(a, n), n) == Identity(n) {
      LeftIdentityInverse(a, n);
    }
  }

  /** A right inverse of a is the matrix `invert` computes. */
  lemma RightInverseInverted(a: seq<real>, c: seq<real>, n: nat)
    requires |a| == n * n && |c| == n * n && MatMul(a, c, n, n, n) == Identity(n)
    ensures Inverted(a, n) == c
  {
    var b := Inverted(a, n);
    RightInverseLeftIdentity(a, c, n);
    LeftIdentityInverse(a, n);
    MulAssoc(b, a, c, n, n, n, n);
    MulIdentityLeft(c, n, n);
    MulIdentityRight(b, n, n);
  }
}
