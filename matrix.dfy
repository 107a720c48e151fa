/**
 * The generic matrix library of final_project/common/matrix.js: `Mat` (any m x n matrix
 * over a column-major buffer) and `SquareMat` (n x n), whose reductions, copies and
 * inversion work in place on the buffer, and whose shape constructors build fresh buffers
 * with push loops.  A thrown error becomes `Err`, and the two classes are one Dafny class
 * with a `kind` field recording which JavaScript class built the object.
 */
module Matrix {
  import opened Wrappers
  import opened Sums
  import opened Layout
  import opened RowOps
  import opened Reduce
  import opened Echelon
  import opened Shapes
  import opened Determinant
  import opened Inverse

  /** The JavaScript class an object was built as: a plain `Mat` or a `SquareMat`. */
  datatype Kind = General | Square

  function ISqrtFrom(x: nat, r: nat): (q: nat)
    requires r <= x && r * r <= x
    decreases x - r
    ensures q * q <= x < (q + 1) * (q + 1)
  {
    if (r + 1) * (r + 1) > x then r else ISqrtFrom(x, r + 1)
  }

  /** Math.trunc(Math.sqrt(x)) for a natural number x: the integer square root. */
  function ISqrt(x: nat): (q: nat)
    ensures q * q <= x < (q + 1) * (q + 1)
  {
    ISqrtFrom(x, 0)
  }

  lemma SquareMono(p: nat, q: nat)
    requires p <= q
    ensures p * p <= q * q
  {
    MulMono(p, p, q);
    MulMono(q, p, q);
  }

  /** A natural number has one integer square root. */
  lemma SquareRootUnique(q: nat, n: nat, x: nat)
    requires q * q <= x < (q + 1) * (q + 1) && x == n * n
    ensures q == n
  {
    if q < n {
      SquareMono(q + 1, n);
    } else if q > n {
      SquareMono(n + 1, q);
    }
  }

  /** The integer square root of n * n is n. */
  lemma ISqrtOfSquare(n: nat)
    ensures ISqrt(n * n) == n
  {
    SquareRootUnique(ISqrt(n * n), n, n * n);
  }

  /** One step of the innermost loop of `__mult__`: the running sum takes term k. */
  lemma ProductStep(a: seq<real>, b: seq<real>, m: nat, n: nat, p: nat, i: int, j: int, k: int)
    requires |a| == m * n && |b| == n * p && 0 <= i < m && 0 <= j < p && 0 <= k < n
    ensures 0 <= i + m * k < |a| && 0 <= k + n * j < |b|
    ensures Sum(k + 1, Term(a, b, m, n, i, j)) == Sum(k, Term(a, b, m, n, i, j)) + a[i + m * k] * b[k + n * j]
  {
    IndexBound(m, n, i, k);
    IndexBound(n, p, k, j);
    TermAt(a, b, m, n, i, j, k);
  }

  /**
   * Entry (r, c) while `reset` runs: the positions before row j of column i, in the order
   * the loops visit them, hold the identity, the rest their old values.
   */
  function ResetEntry(a: seq<real>, n: nat, i: int, j: int, r: int, c: int): real
  {
    if c < i || (c == i && r < j) then (if r == c then 1.0 else 0.0) else Get(a, n, r, c)
  }

  /**
   * What `padded` pushes at position i = r + (n+1)*c, having pushed j entries of a so
   * far: 0 when its test picks the last row or column, and otherwise entry j of a, which
   * is entry (r, c) of a.
   */
  lemma PaddedEntry(a: seq<real>, n: nat, r: nat, c: nat, i: int, j: int)
    requires |a| == n * n && r <= n && c <= n && i == r + (n + 1) * c && i < (n + 1) * (n + 1) - 1
    requires j == if c < n then n * c + r else n * n
    ensures (i + 1) % (n + 1) == 0 || i >= n * (n + 1) ==> PaddedF(a, n)(r, c) == 0.0
    ensures (i + 1) % (n + 1) == 0 || i >= n * (n + 1) <==> r == n || c == n
    ensures !((i + 1) % (n + 1) == 0 || i >= n * (n + 1)) ==> 0 <= j < |a| && a[j] == PaddedF(a, n)(r, c)
  {
    PaddedIndex(n, r, c);
    if r < n && c < n {
      IndexBound(n, n, r, c);
    }
  }

  /** Pushing entry (r, c) extends the prefix; after the last row the next column starts. */
  lemma PaddedPush(a: seq<real>, n: nat, r: nat, c: nat, data: seq<real>)
    requires r <= n && data == Build(n + 1, c, PaddedF(a, n)) + Column(n + 1, c, PaddedF(a, n))[..r]
    ensures var next := data + [PaddedF(a, n)(r, c)];
      if r == n then next == Build(n + 1, c + 1, PaddedF(a, n)) + Column(n + 1, c + 1, PaddedF(a, n))[..0]
      else next == Build(n + 1, c, PaddedF(a, n)) + Column(n + 1, c, PaddedF(a, n))[..r + 1]
  {
    var F := PaddedF(a, n);
    BuildPush(n + 1, c, r, F);
    if r == n {
      BuildNextColumn(n + 1, c, F);
      assert Column(n + 1, c + 1, F)[..0] == [];
    }
  }

  /**
   * The bookkeeping of one iteration of the loop of `padded`: after the entry at row r,
   * column c is pushed, the position moves down the column, or to the top of the next one.
   */
  lemma PaddedAdvance(a: seq<real>, n: nat, r: nat, c: nat, nc: nat, i: nat, j: nat, j': nat, data: seq<real>, data': seq<real>)
    returns (r': nat, c': nat, nc': nat)
    requires r <= n && c <= n && nc == n * c && i == r + nc + c && i < n * n + 2 * n
    requires data == Build(n + 1, c, PaddedF(a, n)) + Column(n + 1, c, PaddedF(a, n))[..r]
    requires j == (if c < n then nc + r else n * n) && j' == (if r < n && c < n then j + 1 else j)
    requires data' == data + [PaddedF(a, n)(r, c)]
    ensures r' <= n && c' <= n && nc' == n * c' && i + 1 == r' + nc' + c' && i + 1 <= n * n + 2 * n
    ensures data' == Build(n + 1, c', PaddedF(a, n)) + Column(n + 1, c', PaddedF(a, n))[..r']
    ensures j' == if c' < n then nc' + r' else n * n
  {
    PaddedPush(a, n, r, c, data);
    if r == n {
      assert n * (c + 1) == nc + n;
      r', c', nc' := 0, c + 1, nc + n;
    } else {
      r', c', nc' := r + 1, c, nc;
    }
  }

  /** When the loop of `padded` stops, only the final 1 at row n, column n is missing. */
  lemma PaddedLast(a: seq<real>, n: nat, r: nat, c: nat, nc: nat, i: nat, data: seq<real>)
    requires r <= n && c <= n && nc == n * c && i == r + nc + c && i == (n + 1) * (n + 1) - 1
    requires data == Build(n + 1, c, PaddedF(a, n)) + Column(n + 1, c, PaddedF(a, n))[..r]
    ensures data + [1.0] == Padded(a, n)
  {
    assert (n + 1) * c == nc + c;
    PaddedIndex(n, r, c);
    BuildPush(n + 1, n, n, PaddedF(a, n));
    BuildNextColumn(n + 1, n, PaddedF(a, n));
  }

  class Mat {
    var kind: Kind
    var m: nat
    var n: nat
    var contents: seq<real>

    /** The buffer holds exactly m * n entries. */
    predicate Valid()
      reads this
    {
      |contents| == m * n
    }

    /** A `SquareMat`: a valid n x n matrix. */
    predicate IsSquare()
      reads this
    {
      Valid() && kind == Square && m == n
    }

    /** Copies the given entries one by one into a fresh object of the given shape. */
    constructor (kind: Kind, contents: seq<real>, m: nat, n: nat)
      requires |contents| == m * n
      ensures Valid() && this.kind == kind && this.contents == contents && this.m == m && this.n == n
    {
      this.kind := kind;
      this.n := n;
      this.m := m;
      this.contents := [];
      new;
      var i := 0;
      while i < |contents|
        invariant 0 <= i <= |contents| && this.contents == contents[..i]
        invariant this.kind == kind && this.m == m && this.n == n
      {
        this.contents := this.contents + [contents[i]];
        i := i + 1;
      }
    }

    /** `new Mat(contents, m, n)`: throws unless there are exactly m * n entries. */
    static method New(contents: seq<real>, m: nat, n: nat) returns (r: Result<Mat>)
      ensures r.Ok? <==> |contents| == m * n
      ensures r.Err? ==> r.msg == "matrix contents of incorrect size for m x n matrix"
      ensures r.Ok? ==>
        fresh(r.value) && r.value.Valid() && r.value.kind == General &&
        r.value.m == m && r.value.n == n && r.value.contents == contents
    {
      if m * n != |contents| {
        return Err("matrix contents of incorrect size for m x n matrix");
      }
      var x := new Mat(General, contents, m, n);
      return Ok(x);
    }

    /**
     * `new SquareMat(contents)`: the side is the truncated square root of the length, and
     * the construction throws unless the length is a perfect square.
     */
    static method NewSquare(contents: seq<real>) returns (r: Result<Mat>)
      ensures r.Ok? <==> ISqrt(|contents|) * ISqrt(|contents|) == |contents|
      ensures r.Err? ==> r.msg == "contents size is not perfect square"
      ensures r.Ok? ==>
        fresh(r.value) && r.value.IsSquare() &&
        r.value.n == ISqrt(|contents|) && r.value.contents == contents
    {
      var n := ISqrt(|contents|);
      if n * n != |contents| {
        return Err("contents size is not perfect square");
      }
      var x := new Mat(Square, contents, n, n);
      return Ok(x);
    }

    /** `Mat.__mult__`: the column-major product buffer, or an error on mismatched sizes. */
    static method MultRaw(left: Mat, right: Mat) returns (r: Result<seq<real>>)
      requires left.Valid() && right.Valid()
      ensures r.Ok? <==> left.n == right.m
      ensures r.Ok? ==> r.value == MatMul(left.contents, right.contents, left.m, left.n, right.n)
    {
      if left.n != right.m {
        return Err("matrix mult size mismatch");
      }
      var a, b := left.contents, right.contents;
      var lm, ln, rn := left.m, left.n, right.n;
      ghost var F := RowColF(a, b, lm, ln);
      var res: seq<real> := [];
      var i := 0;
      while i < rn
        invariant 0 <= i <= rn
        invariant res == Build(lm, i, F)
      {
        var j := 0;
        while j < lm
          invariant 0 <= j <= lm
          invariant res == Build(lm, i, F) + Column(lm, i, F)[..j]
        {
          var ele := 0.0;
          var k := 0;
          while k < ln
            invariant 0 <= k <= ln
            invariant ele == Sum(k, Term(a, b, lm, ln, j, i))
          {
            ProductStep(a, b, lm, ln, rn, j, i, k);
            ele := ele + a[j + lm * k] * b[k + ln * i];
            k := k + 1;
          }
          BuildPush(lm, i, j, F);
          res := res + [ele];
          j := j + 1;
        }
        BuildNextColumn(lm, i, F);
        i := i + 1;
      }
      return Ok(res);
    }

    /** `Mat.mult`: the product as a plain `Mat` (left.m x right.n). */
    static method Mult(left: Mat, right: Mat) returns (r: Result<Mat>)
      requires left.Valid() && right.Valid()
      ensures r.Ok? <==> left.n == right.m
      ensures r.Ok? ==>
        fresh(r.value) && r.value.Valid() && r.value.kind == General &&
        r.value.m == left.m && r.value.n == right.n &&
        r.value.contents == MatMul(left.contents, right.contents, left.m, left.n, right.n)
    {
      var raw := MultRaw(left, right);
      if raw.Err? {
        return Err(raw.msg);
      }
      r := New(raw.value, left.m, right.n);
    }

    /** `SquareMat.mult`: the product buffer reread as a square matrix. */
    static method SquareMult(left: Mat, right: Mat) returns (r: Result<Mat>)
      requires left.Valid() && right.Valid()
      ensures r.Ok? <==> left.n == right.m && ISqrt(left.m * right.n) * ISqrt(left.m * right.n) == left.m * right.n
      ensures r.Ok? ==>
        fresh(r.value) && r.value.IsSquare() && r.value.n == ISqrt(left.m * right.n) &&
        r.value.contents == MatMul(left.contents, right.contents, left.m, left.n, right.n)
    {
      var raw := MultRaw(left, right);
      if raw.Err? {
        return Err(raw.msg);
      }
      r := NewSquare(raw.value);
    }

    /** `copyContents`: overwrites the buffer with source, or throws if the sizes differ. */
    method CopyContents(source: seq<real>) returns (r: Outcome)
      requires Valid()
      modifies this
      ensures Valid() && m == old(m) && n == old(n) && kind == old(kind)
      ensures r.Done? <==> |source| == m * n
      ensures contents == if r.Done? then source else old(contents)
    {
      if n * m != |source| {
        return Failed("dimension mismatch");
      }
      var i := 0;
      while i < |source|
        invariant 0 <= i <= |source| && |contents| == |source|
        invariant m == old(m) && n == old(n) && kind == old(kind)
        invariant forall t :: 0 <= t < i ==> contents[t] == source[t]
      {
        contents := contents[i := source[i]];
        i := i + 1;
      }
      assert contents == source;
      return Done;
    }

    /** `clone`: a fresh object of the same class with a copy of the buffer. */
    method Clone() returns (c: Mat)
      requires Valid() && (kind == Square ==> m == n)
      ensures fresh(c) && c.Valid() && c.kind == kind && c.m == m && c.n == n && c.contents == contents
    {
      var copy: seq<real> := [];
      var i := 0;
      while i < |contents|
        invariant 0 <= i <= |contents| && copy == contents[..i]
      {
        copy := copy + [contents[i]];
        i := i + 1;
      }
      if kind == Square {
        ISqrtOfSquare(n);
        var r := NewSquare(copy);
        c := r.value;
      } else {
        c := new Mat(General, copy, m, n);
      }
    }
      /** The pivot search of `rref` and `ref`: the first row of largest magnitude in column k from row h on. */
    method PivotSearch(h: nat, k: nat) returns (iMax: nat)
      requires Valid() && h < m && k < n
      ensures iMax == PivotRow(contents, m, k, h)
    {
      iMax := h;
      var i := h + 1;
      while i < m
        invariant h < i <= m && iMax < i
        invariant PivotScan(contents, m, k, iMax, i) == PivotRow(contents, m, k, h)
      {
        IndexBound(m, n, i, k);
        IndexBound(m, n, iMax, k);
        if Abs(contents[i + m * k]) > Abs(contents[iMax + m * k]) {
          iMax := i;
        }
        i := i + 1;
      }
    }

    /** The pivot search followed by the test whether the candidate entry is zero. */
    method PivotCandidate(h: nat, k: nat) returns (iMax: nat, none: bool)
      requires Valid() && h < m && k < n
      ensures iMax == PivotRow(contents, m, k, h) && iMax < m
      ensures none <==> Get(contents, m, iMax, k) == 0.0
    {
      iMax := PivotSearch(h, k);
      IndexBound(m, n, iMax, k);
      none := contents[iMax + m * k] == 0.0;
    }

    /** The exchange loop: rows r and h trade places, column by column. */
    method SwapInPlace(r: nat, h: nat)
      requires Valid() && r < m && h < m
      modifies this
      ensures Valid() && kind == old(kind) && m == old(m) && n == old(n)
      ensures contents == SwapRows(old(contents), m, n, r, h)
    {
      var j := 0;
      while j < n
        invariant 0 <= j <= n && Valid() && kind == old(kind) && m == old(m) && n == old(n)
        invariant forall i, c :: 0 <= i < m && 0 <= c < n ==>
          Get(contents, m, i, c) == if c < j then Swapped(old(contents), m, r, h, i, c) else Get(old(contents), m, i, c)
      {
        IndexBound(m, n, r, j);
        IndexBound(m, n, h, j);
        PutGet(contents, m, n, r, j, contents[h + m * j]);
        var temp := contents[r + m * j];
        contents := contents[r + m * j := contents[h + m * j]];
        PutGet(contents, m, n, h, j, temp);
        contents := contents[h + m * j := temp];
        j := j + 1;
      }
      SwapRowsGet(old(contents), m, n, r, h);
      Ext(contents, SwapRows(old(contents), m, n, r, h), m, n);
    }

    /**
     * The division loop of `rref`: row h from column k on is divided by its entry in
     * column k, right to left, so that the divisor is overwritten last.
     */
    method DividePivotRow(h: nat, k: nat)
      requires Valid() && h < m && k < n && Get(contents, m, h, k) != 0.0
      modifies this
      ensures Valid() && kind == old(kind) && m == old(m) && n == old(n)
      ensures contents == DivideRowFrom(old(contents), m, n, h, k, Get(old(contents), m, h, k))
    {
      ghost var a := contents;
      ghost var p := Get(a, m, h, k);
      var j: int := n - 1;
      while j >= k
        invariant k - 1 <= j < n && Valid() && kind == old(kind) && m == old(m) && n == old(n)
        invariant forall i, c :: 0 <= i < m && 0 <= c < n ==>
          Get(contents, m, i, c) == if j < c then Divided(a, m, h, k, p, i, c) else Get(a, m, i, c)
      {
        IndexBound(m, n, h, k);
        IndexBound(m, n, h, j);
        PutGet(contents, m, n, h, j, contents[h + m * j] / contents[h + m * k]);
        contents := contents[h + m * j := contents[h + m * j] / contents[h + m * k]];
        j := j - 1;
      }
      DivideRowFromGet(a, m, n, h, k, p);
      Ext(contents, DivideRowFrom(a, m, n, h, k, p), m, n);
    }

    /** The inner elimination loop: row i loses f times row h in the columns from k on. */
    method SubtractRowMultiple(i: nat, h: nat, k: nat, f: real)
      requires Valid() && i < m && h < m && i != h && k < n
      modifies this
      ensures Valid() && kind == old(kind) && m == old(m) && n == old(n)
      ensures forall r, c :: 0 <= r < m && 0 <= c < n ==> Get(contents, m, r, c) == Subtracted(old(contents), m, i, h, k, n, f, r, c)
    {
      ghost var a := contents;
      var j := k;
      while j < n
        invariant k <= j <= n && Valid() && kind == old(kind) && m == old(m) && n == old(n)
        invariant forall r, c :: 0 <= r < m && 0 <= c < n ==> Get(contents, m, r, c) == Subtracted(a, m, i, h, k, j, f, r, c)
      {
        IndexBound(m, n, h, j);
        IndexBound(m, n, i, j);
        assert contents[i + m * j] == Get(contents, m, i, j) == Get(a, m, i, j);
        assert contents[h + m * j] == Get(contents, m, h, j) == Get(a, m, h, j);
        var v := contents[i + m * j] - contents[h + m * j] * f;
        assert v == Subtracted(a, m, i, h, k, j + 1, f, i, j);
        PutGet(contents, m, n, i, j, v);
        contents := contents[i + m * j := v];
        forall r, c | 0 <= r < m && 0 <= c < n ensures Get(contents, m, r, c) == Subtracted(a, m, i, h, k, j + 1, f, r, c) {
          if r == i && c == j {
            assert Get(contents, m, r, c) == v;
          } else {
            assert Get(contents, m, r, c) == Subtracted(a, m, i, h, k, j, f, r, c);
          }
        }
        j := j + 1;
      }
    }

    /** The outer elimination loop: rows lo..m-1 other than h are cleared in column k against row h. */
    method ClearColumn(h: nat, k: nat, lo: nat)
      requires Valid() && h < m && k < n && lo <= m && Get(contents, m, h, k) != 0.0
      modifies this
      ensures Valid() && kind == old(kind) && m == old(m) && n == old(n)
      ensures contents == Eliminate(old(contents), m, n, h, k, lo, m)
    {
      ghost var a := contents;
      var i := lo;
      while i < m
        invariant lo <= i <= m && Valid() && kind == old(kind) && m == old(m) && n == old(n)
        invariant forall r, c :: 0 <= r < m && 0 <= c < n ==> Get(contents, m, r, c) == Cleared(a, m, h, k, lo, i, r, c)
      {
        ghost var b := contents;
        if i != h {
          IndexBound(m, n, i, k);
          IndexBound(m, n, h, k);
          assert Get(b, m, h, k) == Get(a, m, h, k);
          var f := contents[i + m * k] / contents[h + m * k];
          SubtractRowMultiple(i, h, k, f);
          ClearedStep(a, b, contents, m, n, h, k, lo, i, f);
        } else {
          ClearedSkip(a, b, m, n, h, k, lo);
        }
        i := i + 1;
      }
      EliminateGet(a, m, n, h, k, lo, m);
      Ext(contents, Eliminate(a, m, n, h, k, lo, m), m, n);
    }

    /**
     * One pivot step of `rref` at row h, column k with candidate row iMax: exchange (negating
     * the scale), divide the scale and the pivot row by the pivot, clear the pivot column.
     */
    method RrefPivot(h: nat, k: nat, iMax: nat, ds: real, ghost sw: nat, ghost piv: seq<int>, ghost vals: seq<real>) returns (ds': real)
      requires Valid() && h < m && k < n && iMax == PivotRow(contents, m, k, h) && Get(contents, m, iMax, k) != 0.0
      modifies this
      ensures Valid() && kind == old(kind) && m == old(m) && n == old(n)
      ensures contents == RrefStep(old(contents), m, n, h, k, iMax)
      ensures ds' == (if iMax != h then ds * -1.0 else ds) / Get(old(contents), m, iMax, k)
      ensures RrefLoop(old(contents), m, n, h, k, ds, sw, piv, vals) ==
        RrefLoop(contents, m, n, h + 1, k + 1, ds', if iMax != h then sw + 1 else sw, piv + [k], vals + [Get(old(contents), m, iMax, k)])
    {
      ghost var a := contents;
      ds' := ds;
      ExchangeGet(a, m, n, h, iMax);
      if iMax != h {
        ds' := ds' * -1.0;
        SwapInPlace(iMax, h);
      }
      assert contents == Exchange(a, m, n, h, iMax);
      IndexBound(m, n, h, k);
      ds' := ds' / contents[h + m * k];
      DividePivotRow(h, k);
      DividedPivot(Exchange(a, m, n, h, iMax), m, n, h, k);
      ClearColumn(h, k, 0);
      RrefStepUnfold(a, m, n, h, k, iMax, Get(a, m, iMax, k), ds, ds', sw, piv, vals);
    }

    /**
     * `rref`: Gauss-Jordan elimination in place with partial pivoting, returning the
     * determinant scale factor; the buffer and the factor are those of the reduction
     * `Reduce.Rref`, whose shape and scale are proved in module Echelon.
     */
    method Rref() returns (detScale: real)
      requires Valid()
      modifies this
      ensures Valid() && kind == old(kind) && m == old(m) && n == old(n)
      ensures contents == Reduce.Rref(old(contents), m, n).mat && detScale == Reduce.Rref(old(contents), m, n).scale
    {
      var h: nat, k: nat := 0, 0;
      detScale := 1.0;
      ghost var sw: nat, piv: seq<int>, vals: seq<real> := 0, [], [];
      ghost var goal := Reduce.Rref(contents, m, n);
      ghost var rows, cols := m, n;
      while k < n && h < m
        invariant Valid() && kind == old(kind) && m == rows && n == cols
        invariant RrefLoop(contents, rows, cols, h, k, detScale, sw, piv, vals) == goal
        decreases n - k
      {
        h, detScale, sw, piv, vals := RrefColumn(h, k, detScale, sw, piv, vals);
        k := k + 1;
      }
    }

    /**
     * One iteration of the column loop of `rref`: column k is passed over when its pivot
     * candidate is zero, and is otherwise pivoted on at row h, which then advances.
     */
    method RrefColumn(h: nat, k: nat, ds: real, ghost sw: nat, ghost piv: seq<int>, ghost vals: seq<real>)
      returns (h': nat, ds': real, ghost sw': nat, ghost piv': seq<int>, ghost vals': seq<real>)
      requires Valid() && h < m && k < n
      modifies this
      ensures Valid() && kind == old(kind) && m == old(m) && n == old(n)
      ensures RrefLoop(old(contents), m, n, h, k, ds, sw, piv, vals) == RrefLoop(contents, m, n, h', k + 1, ds', sw', piv', vals')
    {
      ghost var a := contents;
      var iMax, none := PivotCandidate(h, k);
      if none {
        RrefSkipUnfold(a, m, n, h, k, ds, sw, piv, vals);
        return h, ds, sw, piv, vals;
      }
      ghost var p := Get(a, m, iMax, k);
      ds' := RrefPivot(h, k, iMax, ds, sw, piv, vals);
      h', sw', piv', vals' := h + 1, if iMax != h then sw + 1 else sw, piv + [k], vals + [p];
    }

    /** One pivot step of `ref`: exchange (negating the scale), then clear below the pivot. */
    method RefPivot(h: nat, k: nat, iMax: nat, ds: real) returns (ds': real)
      requires Valid() && h < m && k < n && iMax < m && Get(contents, m, iMax, k) != 0.0
      modifies this
      ensures Valid() && kind == old(kind) && m == old(m) && n == old(n)
      ensures contents == RefStep(old(contents), m, n, h, k, iMax)
      ensures ds' == if iMax != h then ds * -1.0 else ds
    {
      ghost var a := contents;
      ds' := ds;
      ExchangeGet(a, m, n, h, iMax);
      if iMax != h {
        ds' := ds' * -1.0;
        SwapInPlace(iMax, h);
      }
      assert contents == Exchange(a, m, n, h, iMax);
      ClearColumn(h, k, h + 1);
    }

    /**
     * `ref`: Gaussian elimination in place with partial pivoting, returning the
     * determinant scale factor; the buffer and the factor are those of `Reduce.Ref`.
     */
    method Ref() returns (detScale: real)
      requires Valid()
      modifies this
      ensures Valid() && kind == old(kind) && m == old(m) && n == old(n)
      ensures contents == Reduce.Ref(old(contents), m, n).mat && detScale == Reduce.Ref(old(contents), m, n).scale
    {
      var h, k := 0, 0;
      detScale := 1.0;
      ghost var sw, piv, vals := 0, [], [];
      ghost var goal := Reduce.Ref(contents, m, n);
      ghost var rows, cols := m, n;
      while h < m - 1 && k < n
        invariant Valid() && kind == old(kind) && m == rows && n == cols
        invariant RefLoop(contents, rows, cols, h, k, detScale, sw, piv, vals) == goal
        decreases n - k
      {
        ghost var a := contents;
        var iMax, none := PivotCandidate(h, k);
        if none {
          RefSkipUnfold(a, m, n, h, k, detScale, sw, piv, vals);
          k := k + 1;
          continue;
        }
        RefStepUnfold(a, m, n, h, k, detScale, sw, piv, vals);
        ghost var p := Get(a, m, iMax, k);
        detScale := RefPivot(h, k, iMax, detScale);
        sw, piv, vals := if iMax != h then sw + 1 else sw, piv + [k], vals + [p];
        h, k := h + 1, k + 1;
      }
    }

    /** `SquareMat.reset`: column by column, 1 where the row equals the column and 0 elsewhere. */
    method Reset()
      requires IsSquare()
      modifies this
      ensures IsSquare() && n == old(n) && contents == Layout.Identity(n)
    {
      ghost var a := contents;
      var i := 0;
      while i < n
        invariant 0 <= i <= n && IsSquare() && n == old(n)
        invariant forall r, c :: 0 <= r < n && 0 <= c < n ==> Get(contents, n, r, c) == ResetEntry(a, n, i, 0, r, c)
      {
        var j := 0;
        while j < n
          invariant 0 <= j <= n && IsSquare() && n == old(n)
          invariant forall r, c :: 0 <= r < n && 0 <= c < n ==> Get(contents, n, r, c) == ResetEntry(a, n, i, j, r, c)
        {
          ghost var b := contents;
          PutGet(b, n, n, j, i, if j == i then 1.0 else 0.0);
          contents := contents[j + n * i := if j == i then 1.0 else 0.0];
          forall r, c | 0 <= r < n && 0 <= c < n ensures Get(contents, n, r, c) == ResetEntry(a, n, i, j + 1, r, c) {
            if r != j || c != i {
              assert Get(contents, n, r, c) == Get(b, n, r, c);
            }
          }
          j := j + 1;
        }
        i := i + 1;
      }
      IdentityGet(n);
      Ext(contents, Layout.Identity(n), n, n);
    }

    /**
     * `SquareMat.identity(n)`: a fresh n x n matrix, reset.  The placeholder entries the
     * JavaScript array starts with are taken to be 0 here; `reset` overwrites every one.
     */
    static method Identity(n: nat) returns (res: Mat)
      ensures fresh(res) && res.IsSquare() && res.n == n && res.contents == Layout.Identity(n)
    {
      ISqrtOfSquare(n);
      var r := NewSquare(seq(n * n, _ => 0.0));
      res := r.value;
      res.Reset();
    }

    /**
     * The push loop of `rot`: column by column, cos at (a, a) and (b, b), -sin at (a, b),
     * sin at (b, a), and the identity elsewhere.
     */
    static method RotationData(n: nat, a: int, b: int, c: real, s: real) returns (data: seq<real>)
      ensures data == Rotation(n, a, b, c, s)
    {
      ghost var F := RotF(a, b, c, s);
      data := [];
      var j := 0;
      while j < n
        invariant 0 <= j <= n && data == Build(n, j, F)
      {
        var i := 0;
        while i < n
          invariant 0 <= i <= n && data == Build(n, j, F) + Column(n, j, F)[..i]
        {
          BuildPush(n, j, i, F);
          if (i == a && j == a) || (i == b && j == b) {
            data := data + [c];
          } else if i == a && j == b {
            data := data + [-s];
          } else if i == b && j == a {
            data := data + [s];
          } else if i == j {
            data := data + [1.0];
          } else {
            data := data + [0.0];
          }
          i := i + 1;
        }
        BuildNextColumn(n, j, F);
        j := j + 1;
      }
    }

    /**
     * `SquareMat.rot(n, a, b, theta)` as written, with c and s standing for the cosine and
     * sine of theta degrees: the bounds test compares n with itself and never bounds b.
     */
    static method RotAsWritten(n: nat, a: int, b: int, c: real, s: real) returns (r: Result<Mat>)
      ensures r.Err? <==> RotRejectsAsWritten(n, a, b)
      ensures r.Ok? ==> fresh(r.value) && r.value.IsSquare() && r.value.n == n && r.value.contents == Rotation(n, a, b, c, s)
    {
      if a > n || n > n || a < 0 || b < 0 {
        return Err("axis out of bounds");
      }
      var data := RotationData(n, a, b, c, s);
      ISqrtOfSquare(n);
      r := NewSquare(data);
    }

    /**
     * `SquareMat.rot` with the bounds test it evidently intends: both axes among 0..n-1.
     * By `RotationOrthogonal` the result is orthogonal when c^2 + s^2 == 1 and a != b.
     */
    static method Rot(n: nat, a: int, b: int, c: real, s: real) returns (r: Result<Mat>)
      ensures r.Err? <==> RotRejects(n, a, b)
      ensures r.Ok? ==> fresh(r.value) && r.value.IsSquare() && r.value.n == n && r.value.contents == Rotation(n, a, b, c, s)
    {
      if a < 0 || a >= n || b < 0 || b >= n {
        return Err("axis out of bounds");
      }
      var data := RotationData(n, a, b, c, s);
      ISqrtOfSquare(n);
      r := NewSquare(data);
    }

    /** `SquareMat3.rotx`: the rotation from the y axis towards the z axis. */
    static method RotX(c: real, s: real) returns (res: Mat)
      ensures fresh(res) && res.IsSquare() && res.n == 3 && res.contents == [1.0, 0.0, 0.0, 0.0, c, s, 0.0, -s, c]
    {
      var r := Rot(3, 1, 2, c, s);
      Rotations3(c, s);
      res := r.value;
    }

    /** `SquareMat3.roty`: the rotation from the z axis towards the x axis. */
    static method RotY(c: real, s: real) returns (res: Mat)
      ensures fresh(res) && res.IsSquare() && res.n == 3 && res.contents == [c, 0.0, -s, 0.0, 1.0, 0.0, s, 0.0, c]
    {
      var r := Rot(3, 2, 0, c, s);
      Rotations3(c, s);
      res := r.value;
    }

    /** `SquareMat3.rotz`: the rotation from the x axis towards the y axis. */
    static method RotZ(c: real, s: real) returns (res: Mat)
      ensures fresh(res) && res.IsSquare() && res.n == 3 && res.contents == [c, s, 0.0, -s, c, 0.0, 0.0, 0.0, 1.0]
    {
      var r := Rot(3, 0, 1, c, s);
      Rotations3(c, s);
      res := r.value;
    }

    /** `SquareMat.transpose`: a fresh matrix whose column i is row i of this one. */
    method Transpose() returns (res: Mat)
      requires IsSquare()
      ensures fresh(res) && res.IsSquare() && res.n == n && res.contents == Shapes.Transpose(contents, n)
    {
      ghost var F := TransposeF(contents, n);
      var data: seq<real> := [];
      var i := 0;
      while i < n
        invariant 0 <= i <= n && data == Build(n, i, F)
      {
        var j := 0;
        while j < n
          invariant 0 <= j <= n && data == Build(n, i, F) + Column(n, i, F)[..j]
        {
          IndexBound(n, n, i, j);
          BuildPush(n, i, j, F);
          data := data + [contents[j * n + i]];
          j := j + 1;
        }
        BuildNextColumn(n, i, F);
        i := i + 1;
      }
      ISqrtOfSquare(n);
      var r := NewSquare(data);
      res := r.value;
    }

    /** `SquareMat.scale(v)`: the |v| x |v| diagonal matrix with diagonal v. */
    static method Scale(v: seq<real>) returns (res: Mat)
      ensures fresh(res) && res.IsSquare() && res.n == |v| && res.contents == Diagonal(v)
    {
      ghost var F := DiagonalF(v);
      var data: seq<real> := [];
      var j := 0;
      while j < |v|
        invariant 0 <= j <= |v| && data == Build(|v|, j, F)
      {
        var i := 0;
        while i < |v|
          invariant 0 <= i <= |v| && data == Build(|v|, j, F) + Column(|v|, j, F)[..i]
        {
          BuildPush(|v|, j, i, F);
          data := data + [if i == j then v[i] else 0.0];
          i := i + 1;
        }
        BuildNextColumn(|v|, j, F);
        j := j + 1;
      }
      ISqrtOfSquare(|v|);
      var r := NewSquare(data);
      res := r.value;
    }

    /**
     * `SquareMat.translation(d)`: |d| columns of the (|d|+1) x (|d|+1) identity, then d
     * and a final 1 as the last column.
     */
    static method Translation(d: seq<real>) returns (res: Mat)
      ensures fresh(res) && res.IsSquare() && res.n == |d| + 1 && res.contents == Shapes.Translation(d)
    {
      ghost var F := TranslationF(d);
      var data: seq<real> := [];
      var j := 0;
      while j < |d|
        invariant 0 <= j <= |d| && data == Build(|d| + 1, j, F)
      {
        var i := 0;
        while i <= |d|
          invariant 0 <= i <= |d| + 1 && data == Build(|d| + 1, j, F) + Column(|d| + 1, j, F)[..i]
        {
          BuildPush(|d| + 1, j, i, F);
          data := data + [if i == j then 1.0 else 0.0];
          i := i + 1;
        }
        BuildNextColumn(|d| + 1, j, F);
        j := j + 1;
      }
      data := data + d;
      data := data + [1.0];
      TranslationLastColumn(d);
      assert data == Build(|d| + 1, |d|, F) + (d + [1.0]);
      ISqrtOfSquare(|d| + 1);
      var r := NewSquare(data);
      res := r.value;
    }

    /**
     * One iteration of the loop of `padded`, at position i = r + (n+1)*c with j entries of
     * this matrix taken so far: 0 in the last row or column, the next entry elsewhere.
     */
    method PaddedPosition(i: nat, j: nat, data: seq<real>, ghost r: nat, ghost c: nat) returns (data': seq<real>, j': nat)
      requires IsSquare() && r <= n && c <= n && i == r + n * c + c && i < (n + 1) * (n + 1) - 1
      requires j == if c < n then n * c + r else n * n
      ensures data' == data + [PaddedF(contents, n)(r, c)]
      ensures j' == if r < n && c < n then j + 1 else j
    {
      assert i == r + (n + 1) * c;
      PaddedEntry(contents, n, r, c, i, j);
      if (i + 1) % (n + 1) == 0 || i >= n * (n + 1) {
        data' := data + [0.0];
        j' := j;
      } else {
        data' := data + [contents[j]];
        j' := j + 1;
      }
    }

    /**
     * `SquareMat.padded`: one pass over the (n+1) x (n+1) positions but the last, pushing 0
     * in the last row and the last column and the next entry of this matrix elsewhere, then
     * a final 1.  Position i is row r, column c of the result.
     */
    method Padded() returns (res: Mat)
      requires IsSquare()
      ensures fresh(res) && res.IsSquare() && res.n == n + 1 && res.contents == Shapes.Padded(contents, n)
    {
      ghost var F := PaddedF(contents, n);
      var data: seq<real> := [];
      var j := 0;
      var i := 0;
      assert (n + 1) * (n + 1) - 1 == n * n + 2 * n;
      ghost var r: nat, c: nat, nc: nat := 0, 0, 0;
      while i < (n + 1) * (n + 1) - 1
        invariant r <= n && c <= n && nc == n * c && i == r + nc + c && i <= n * n + 2 * n
        invariant data == Build(n + 1, c, F) + Column(n + 1, c, F)[..r]
        invariant j == if c < n then nc + r else n * n
        decreases n * n + 2 * n - i
      {
        ghost var before, j0 := data, j;
        data, j := PaddedPosition(i, j, data, r, c);
        r, c, nc := PaddedAdvance(contents, n, r, c, nc, i, j0, j, before, data);
        i := i + 1;
      }
      PaddedLast(contents, n, r, c, nc, i, data);
      data := data + [1.0];
      ISqrtOfSquare(n + 1);
      var rs := NewSquare(data);
      res := rs.value;
    }

    /**
     * `SquareMat.det`: `ref` on a clone, then the returned scale factor times the diagonal.
     * The matrix itself is left alone (the method modifies nothing).
     */
    method Det() returns (d: real)
      requires IsSquare()
      ensures d == DetOf(contents, n)
    {
      ghost var a := contents;
      ghost var R := Reduce.Ref(a, n, n);
      var refed := Clone();
      d := refed.Ref();
      var i := 0;
      while i < n
        invariant 0 <= i <= n && refed.n == n && refed.contents == R.mat
        invariant RunningDet(R.mat, n, i, d) == DetOf(a, n)
      {
        IndexBound(n, n, i, i);
        assert refed.contents[i + refed.n * i] == Get(R.mat, n, i, i);
        assert Times(d, Get(R.mat, n, i, i)) == d * refed.contents[i + refed.n * i];
        d := d * refed.contents[i + refed.n * i];
        i := i + 1;
      }
      assert d == DetOf(a, n);
    }

    /**
     * The first loop of `invert`: the n x n identity is pushed one entry at a time, 1 at
     * the diagonal positions i*n + i and 0 elsewhere.
     */
    method AppendIdentity()
      requires IsSquare()
      modifies this
      ensures kind == old(kind) && m == old(m) && n == old(n)
      ensures contents == old(contents) + Layout.Identity(n)
    {
      ghost var a := contents;
      var i := 0;
      var len := |contents|;
      var j := 0;
      while j < len
        invariant len == |a| == n * n && 0 <= j <= len && contents == a + Layout.Identity(n)[..j]
        invariant i * (n + 1) >= j && (i > 0 ==> (i - 1) * (n + 1) < j)
        invariant kind == old(kind) && m == old(m) && n == old(n)
      {
        IdentityPush(n, i, j);
        if j == i * n + i {
          contents := contents + [1.0];
          i := i + 1;
        } else {
          contents := contents + [0.0];
        }
        j := j + 1;
      }
      assert Layout.Identity(n)[..j] == Layout.Identity(n);
    }

    /** The last loop of `invert`: `shift` drops the first entry, count times. */
    method ShiftOff(count: nat)
      requires count <= |contents|
      modifies this
      ensures kind == old(kind) && m == old(m) && n == old(n) && contents == old(contents)[count..]
    {
      var t := 0;
      while t < count
        invariant 0 <= t <= count && contents == old(contents)[t..]
        invariant kind == old(kind) && m == old(m) && n == old(n)
      {
        contents := contents[1..];
        t := t + 1;
      }
    }

    /**
     * `SquareMat.invert`: the buffer is extended by the n x n identity, the width doubled,
     * `rref` run on the n x 2n matrix, the first n*n entries shifted off and the width
     * halved again.  The result is a two-sided inverse of the old matrix exactly when the
     * old matrix has one.
     */
    method Invert()
      requires IsSquare()
      modifies this
      ensures IsSquare() && n == old(n) && contents == Inverted(old(contents), old(n))
      ensures Invertible(old(contents), n) <==> InverseOf(contents, old(contents), n)
    {
      ghost var a0 := contents;
      var len := |contents|;
      AppendIdentity();
      assert n * (2 * n) == n * n + n * n;
      n := n * 2;
      var ignored := Rref();
      ShiftOff(len);
      n := n / 2;
      InvertedInverse(a0, n);
    }
  }
}
