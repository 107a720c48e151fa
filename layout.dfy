/**
 * Column-major flat storage shared by every matrix of the libraries: entry (i, j) of a
 * matrix with m rows sits at index i + m*j.  Everything about entries goes through `Get`,
 * which is total (0.0 outside the matrix) so that quantified facts need no side conditions.
 */
module Layout {
  import opened Sums

  function Get(a: seq<real>, m: nat, i: int, j: int): real
  {
    if 0 <= i < m && 0 <= j && i + m * j < |a| then a[i + m * j] else 0.0
  }

  lemma MulMono(m: nat, a: int, b: int)
    requires a <= b
    ensures m * a <= m * b
  {
    assert m * b - m * a == m * (b - a);
  }

  lemma IndexBound(m: nat, n: nat, i: int, j: int)
    requires 0 <= i < m && 0 <= j < n
    ensures 0 <= m * j && i + m * j < m * n
  {
    MulMono(m, 0, j);
    MulMono(m, j, n - 1);
    assert m * (n - 1) == m * n - m;
  }

  lemma IndexSplit(m: nat, i: int, j: int)
    requires 0 <= i < m && 0 <= j
    ensures (i + m * j) % m == i && (i + m * j) / m == j
  {
    var x := i + m * j;
    var q, r := x / m, x % m;
    assert x == m * q + r && 0 <= r < m;
    if q > j {
      MulMono(m, j + 1, q);
      assert false;
    } else if q < j {
      MulMono(m, q + 1, j);
      assert false;
    }
  }

  lemma IndexOf(m: nat, n: nat, x: int)
    requires 0 <= x < m * n
    ensures m > 0 && 0 <= x % m < m && 0 <= x / m < n && x == x % m + m * (x / m)
  {
    assert m != 0;
    var q := x / m;
    if q >= n {
      MulMono(m, n, q);
      assert false;
    }
  }

  /** Column j of the matrix whose entry (i, j) is f(i, j), m entries long. */
  function Column(m: nat, j: int, f: (int, int) -> real): (c: seq<real>)
    ensures |c| == m && forall i :: 0 <= i < m ==> c[i] == f(i, j)
  {
    seq(m, i => f(i, j))
  }

  /** The matrix with m rows and n columns whose entry (i, j) is f(i, j), built column by column. */
  function Build(m: nat, n: nat, f: (int, int) -> real): (r: seq<real>)
    decreases n
    ensures |r| == m * n
  {
    if n == 0 then [] else Build(m, n - 1, f) + Column(m, n - 1, f)
  }

  /** Entry (i, j) of Build(m, n, f) is f(i, j). */
  lemma {:induction false} BuildGet(m: nat, n: nat, f: (int, int) -> real)
    decreases n
    ensures forall i, j :: 0 <= i < m && 0 <= j < n ==> Get(Build(m, n, f), m, i, j) == f(i, j)
  {
    if n > 0 {
      var prefix := Build(m, n - 1, f);
      BuildGet(m, n - 1, f);
      assert m * (n - 1) + m == m * n;
      forall i, j | 0 <= i < m && 0 <= j < n ensures Get(prefix + Column(m, n - 1, f), m, i, j) == f(i, j) {
        IndexBound(m, n, i, j);
        if j < n - 1 {
          IndexBound(m, n - 1, i, j);
          assert Get(prefix, m, i, j) == prefix[i + m * j];
        } else {
          assert i + m * j == m * (n - 1) + i;
        }
      }
    }
  }

  /** A loop that pushes the entries of column j one by one extends the built prefix. */
  lemma BuildPush(m: nat, j: nat, i: nat, f: (int, int) -> real)
    requires i < m
    ensures Build(m, j, f) + Column(m, j, f)[..i] + [f(i, j)] == Build(m, j, f) + Column(m, j, f)[..i + 1]
  {
    assert Column(m, j, f)[..i] + [f(i, j)] == Column(m, j, f)[..i + 1];
  }

  /** Once all m entries of column j are pushed, the prefix is the first j + 1 columns. */
  lemma BuildNextColumn(m: nat, j: nat, f: (int, int) -> real)
    ensures Build(m, j, f) + Column(m, j, f)[..m] == Build(m, j + 1, f)
  {
    assert Column(m, j, f)[..m] == Column(m, j, f);
  }

  /** Two matrices of one shape are equal when all their entries are. */
  lemma Ext(a: seq<real>, b: seq<real>, m: nat, n: nat)
    requires |a| == m * n && |b| == m * n
    requires forall i, j :: 0 <= i < m && 0 <= j < n ==> Get(a, m, i, j) == Get(b, m, i, j)
    ensures a == b
  {
    forall x | 0 <= x < m * n ensures a[x] == b[x] {
      IndexOf(m, n, x);
      assert Get(a, m, x % m, x / m) == Get(b, m, x % m, x / m);
    }
  }

  /** Writing one entry of a column-major buffer changes that entry and no other. */
  lemma PutGet(a: seq<real>, m: nat, n: nat, i: int, j: int, v: real)
    requires |a| == m * n && 0 <= i < m && 0 <= j < n
    ensures 0 <= i + m * j < |a|
    ensures forall r, c :: 0 <= r < m && 0 <= c < n ==>
      Get(a[i + m * j := v], m, r, c) == if r == i && c == j then v else Get(a, m, r, c)
  {
    IndexBound(m, n, i, j);
    var x := i + m * j;
    var b := a[x := v];
    forall r, c | 0 <= r < m && 0 <= c < n
      ensures Get(b, m, r, c) == if r == i && c == j then v else Get(a, m, r, c)
    {
      IndexBound(m, n, r, c);
      var y := r + m * c;
      assert Get(b, m, r, c) == b[y] && Get(a, m, r, c) == a[y];
      if r == i && c == j {
        assert y == x;
      } else {
        assert y != x by {
          if y == x {
            IndexSplit(m, r, c);
            IndexSplit(m, i, j);
          }
        }
      }
    }
  }

  /** The Kronecker delta as an entry function. */
  function Delta(): (int, int) -> real
  {
    (i, j) => if i == j then 1.0 else 0.0
  }

  /** The n x n identity matrix. */
  function Identity(n: nat): (r: seq<real>)
    ensures |r| == n * n
  {
    Build(n, n, Delta())
  }

  lemma IdentityGet(n: nat)
    ensures forall i, j :: 0 <= i < n && 0 <= j < n ==> Get(Identity(n), n, i, j) == if i == j then 1.0 else 0.0
  {
    BuildGet(n, n, Delta());
  }

  /** The k-th term of row i of a (m rows) times column j of b (n rows). */
  function Term(a: seq<real>, b: seq<real>, m: nat, n: nat, i: int, j: int): int -> real
  {
    k => Get(a, m, i, k) * Get(b, n, k, j)
  }

  function RowCol(a: seq<real>, b: seq<real>, m: nat, n: nat, i: int, j: int): real
  {
    Sum(n, Term(a, b, m, n, i, j))
  }

  function RowColF(a: seq<real>, b: seq<real>, m: nat, n: nat): (int, int) -> real
  {
    (i, j) => RowCol(a, b, m, n, i, j)
  }

  /** The product of a (m x n) and b (n x p), the m x p matrix of row-by-column sums. */
  function MatMul(a: seq<real>, b: seq<real>, m: nat, n: nat, p: nat): (r: seq<real>)
    ensures |r| == m * p
  {
    Build(m, p, RowColF(a, b, m, n))
  }

  /** Entry (i, j) of a product is the sum over k of a[i, k] * b[k, j]. */
  lemma MatMulEntries(a: seq<real>, b: seq<real>, m: nat, n: nat, p: nat)
    ensures forall i, j :: 0 <= i < m && 0 <= j < p ==> Get(MatMul(a, b, m, n, p), m, i, j) == RowCol(a, b, m, n, i, j)
  {
    BuildGet(m, p, RowColF(a, b, m, n));
  }

  lemma {:induction false} MulIdentityLeft(a: seq<real>, m: nat, n: nat)
    requires |a| == m * n
    ensures MatMul(Identity(m), a, m, m, n) == a
  {
    var r := MatMul(Identity(m), a, m, m, n);
    MatMulEntries(Identity(m), a, m, m, n);
    forall i, j | 0 <= i < m && 0 <= j < n ensures Get(r, m, i, j) == Get(a, m, i, j) {
      IdentityGet(m);
      SumSingle(m, Term(Identity(m), a, m, m, i, j), i);
    }
    Ext(r, a, m, n);
  }

  lemma {:induction false} MulIdentityRight(a: seq<real>, m: nat, n: nat)
    requires |a| == m * n
    ensures MatMul(a, Identity(n), m, n, n) == a
  {
    var r := MatMul(a, Identity(n), m, n, n);
    MatMulEntries(a, Identity(n), m, n, n);
    forall i, j | 0 <= i < m && 0 <= j < n ensures Get(r, m, i, j) == Get(a, m, i, j) {
      IdentityGet(n);
      SumSingle(n, Term(a, Identity(n), m, n, i, j), j);
    }
    Ext(r, a, m, n);
  }

  /** Matrix multiplication is associative. */
  lemma {:induction false} MulAssoc(a: seq<real>, b: seq<real>, c: seq<real>, m: nat, n: nat, p: nat, q: nat)
    requires |a| == m * n && |b| == n * p && |c| == p * q
    ensures MatMul(MatMul(a, b, m, n, p), c, m, p, q) == MatMul(a, MatMul(b, c, n, p, q), m, n, q)
  {
    var lhs := MatMul(MatMul(a, b, m, n, p), c, m, p, q);
    var rhs := MatMul(a, MatMul(b, c, n, p, q), m, n, q);
    MatMulEntries(MatMul(a, b, m, n, p), c, m, p, q);
    MatMulEntries(a, MatMul(b, c, n, p, q), m, n, q);
    forall i, l | 0 <= i < m && 0 <= l < q ensures Get(lhs, m, i, l) == Get(rhs, m, i, l) {
      AssocEntry(a, b, c, m, n, p, q, i, l);
    }
    Ext(lhs, rhs, m, q);
  }

  /** The terms a[i, j] * b[j, k] * c[k, l] of entry (i, l) of a triple product, grouped left. */
  function TripleL(a: seq<real>, b: seq<real>, c: seq<real>, m: nat, n: nat, p: nat, i: int, l: int): (int, int) -> real
  {
    (k, j) => Get(a, m, i, j) * Get(b, n, j, k) * Get(c, p, k, l)
  }

  /** The same terms grouped right. */
  function TripleR(a: seq<real>, b: seq<real>, c: seq<real>, m: nat, n: nat, p: nat, i: int, l: int): (int, int) -> real
  {
    (k, j) => Get(a, m, i, j) * (Get(b, n, j, k) * Get(c, p, k, l))
  }

  lemma Reassoc(x: real, y: real, z: real)
    ensures x * y * z == x * (y * z)
  {
  }

  lemma TermAt(a: seq<real>, b: seq<real>, m: nat, n: nat, i: int, j: int, k: int)
    ensures Term(a, b, m, n, i, j)(k) == Get(a, m, i, k) * Get(b, n, k, j)
  {
  }

  lemma MatMulGet(a: seq<real>, b: seq<real>, m: nat, n: nat, p: nat, i: int, k: int)
    requires 0 <= i < m && 0 <= k < p
    ensures Get(MatMul(a, b, m, n, p), m, i, k) == Sum(n, Term(a, b, m, n, i, k))
  {
    MatMulEntries(a, b, m, n, p);
  }

  /** Summing the left-grouped terms over j: (row i of a times column k of b) * c[k, l]. */
  lemma TripleRow(a: seq<real>, b: seq<real>, c: seq<real>, m: nat, n: nat, p: nat, i: int, l: int, k: int)
    ensures Sum(n, RowOf(TripleL(a, b, c, m, n, p, i, l), k)) == Sum(n, Term(a, b, m, n, i, k)) * Get(c, p, k, l)
  {
    SumScaleRight(n, Term(a, b, m, n, i, k), Get(c, p, k, l), RowOf(TripleL(a, b, c, m, n, p, i, l), k));
  }

  /** Summing the right-grouped terms over k: a[i, j] * (row j of b times column l of c). */
  lemma TripleCol(a: seq<real>, b: seq<real>, c: seq<real>, m: nat, n: nat, p: nat, i: int, l: int, j: int)
    ensures Sum(p, ColOf(TripleR(a, b, c, m, n, p, i, l), j)) == Get(a, m, i, j) * Sum(p, Term(b, c, n, p, j, l))
  {
    SumScale(p, Term(b, c, n, p, j, l), Get(a, m, i, j), ColOf(TripleR(a, b, c, m, n, p, i, l), j));
  }

  /** Regrouping every term of a column leaves its sum unchanged. */
  lemma TripleRegroup(a: seq<real>, b: seq<real>, c: seq<real>, m: nat, n: nat, p: nat, i: int, l: int, j: int)
    ensures Sum(p, ColOf(TripleL(a, b, c, m, n, p, i, l), j)) == Sum(p, ColOf(TripleR(a, b, c, m, n, p, i, l), j))
  {
    forall k | 0 <= k < p ensures ColOf(TripleL(a, b, c, m, n, p, i, l), j)(k) == ColOf(TripleR(a, b, c, m, n, p, i, l), j)(k) {
      Reassoc(Get(a, m, i, j), Get(b, n, j, k), Get(c, p, k, l));
    }
    SumExt(p, ColOf(TripleL(a, b, c, m, n, p, i, l), j), ColOf(TripleR(a, b, c, m, n, p, i, l), j));
  }

  /** Equals multiplied by the same factor on the same side. */
  lemma MulLeftEq(x: real, y: real, z: real)
    requires x == y
    ensures x * z == y * z && z * x == z * y
  {
  }

  lemma AssocLeftRow(a: seq<real>, b: seq<real>, c: seq<real>, m: nat, n: nat, p: nat, i: int, l: int, k: int)
    requires 0 <= i < m && 0 <= k < p
    ensures Term(MatMul(a, b, m, n, p), c, m, p, i, l)(k) == Sum(n, RowOf(TripleL(a, b, c, m, n, p, i, l), k))
  {
    var y := Get(MatMul(a, b, m, n, p), m, i, k);
    var s := Sum(n, Term(a, b, m, n, i, k));
    MatMulGet(a, b, m, n, p, i, k);
    MulLeftEq(y, s, Get(c, p, k, l));
    TripleRow(a, b, c, m, n, p, i, l, k);
  }

  lemma AssocRightCol(a: seq<real>, b: seq<real>, c: seq<real>, m: nat, n: nat, p: nat, q: nat, i: int, l: int, j: int)
    requires 0 <= j < n && 0 <= l < q
    ensures Term(a, MatMul(b, c, n, p, q), m, n, i, l)(j) == Sum(p, ColOf(TripleL(a, b, c, m, n, p, i, l), j))
  {
    var y := Get(MatMul(b, c, n, p, q), n, j, l);
    var s := Sum(p, Term(b, c, n, p, j, l));
    MatMulGet(b, c, n, p, q, j, l);
    MulLeftEq(y, s, Get(a, m, i, j));
    TripleCol(a, b, c, m, n, p, i, l, j);
    TripleRegroup(a, b, c, m, n, p, i, l, j);
  }

  lemma {:induction false} AssocEntry(a: seq<real>, b: seq<real>, c: seq<real>, m: nat, n: nat, p: nat, q: nat, i: int, l: int)
    requires |a| == m * n && |b| == n * p && |c| == p * q
    requires 0 <= i < m && 0 <= l < q
    ensures RowCol(MatMul(a, b, m, n, p), c, m, p, i, l) == RowCol(a, MatMul(b, c, n, p, q), m, n, i, l)
  {
    forall k | 0 <= k < p ensures Term(MatMul(a, b, m, n, p), c, m, p, i, l)(k) == Sum(n, RowOf(TripleL(a, b, c, m, n, p, i, l), k)) {
      AssocLeftRow(a, b, c, m, n, p, i, l, k);
    }
    forall j | 0 <= j < n ensures Term(a, MatMul(b, c, n, p, q), m, n, i, l)(j) == Sum(p, ColOf(TripleL(a, b, c, m, n, p, i, l), j)) {
      AssocRightCol(a, b, c, m, n, p, q, i, l, j);
    }
    SumSwap(p, n, TripleL(a, b, c, m, n, p, i, l), Term(MatMul(a, b, m, n, p), c, m, p, i, l), Term(a, MatMul(b, c, n, p, q), m, n, i, l));
  }
}
