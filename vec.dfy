/**
 * `Vec`, the column vector of matrix.js: a one-column `Mat` whose entries change in place,
 * together with `data`, the array it was constructed from, which `mag` reads.
 */
module Vectors {
  import opened Wrappers
  import opened Sums
  import opened Layout
  import opened RowOps
  import opened Determinant
  import opened Cofactors
  import opened Matrix
  import FixedVectors

  /** The tolerance `equals` allows between corresponding components. */
  const Tolerance: real := 0.0001

  /** Component k of u, and 0.0 past its end. */
  function Comp(u: seq<real>, k: int): real
  {
    if 0 <= k < |u| then u[k] else 0.0
  }

  /** Same dimension, and every pair of components within the tolerance. */
  predicate Close(u: seq<real>, v: seq<real>)
  {
    |u| == |v| && forall i :: 0 <= i < |u| ==> Abs(u[i] - v[i]) <= Tolerance
  }

  /** Closeness is reflexive and symmetric, and exact equality implies it. */
  lemma CloseSymmetric(u: seq<real>, v: seq<real>)
    ensures Close(u, v) <==> Close(v, u)
    ensures u == v ==> Close(u, v)
  {
    if Close(u, v) {
      forall i | 0 <= i < |v| ensures Abs(v[i] - u[i]) <= Tolerance {
        assert Abs(u[i] - v[i]) <= Tolerance;
      }
    }
    if Close(v, u) {
      forall i | 0 <= i < |u| ensures Abs(u[i] - v[i]) <= Tolerance {
        assert Abs(v[i] - u[i]) <= Tolerance;
      }
    }
  }

  function DotTerm(u: seq<real>, v: seq<real>): int -> real
  {
    k => Comp(u, k) * Comp(v, k)
  }

  /** The dot product: u[0]*v[0] + ... + u[n-1]*v[n-1], summed left to right. */
  function DotProduct(u: seq<real>, v: seq<real>): real
  {
    Sum(|u|, DotTerm(u, v))
  }

  lemma DotSymmetric(u: seq<real>, v: seq<real>)
    requires |u| == |v|
    ensures DotProduct(u, v) == DotProduct(v, u)
  {
    SumExt(|u|, DotTerm(u, v), DotTerm(v, u));
  }

  /** The dot product is the single entry of the 1 x n row u times the n x 1 column v. */
  lemma DotIsProduct(u: seq<real>, v: seq<real>)
    requires |u| == |v|
    ensures |MatMul(u, v, 1, |u|, 1)| == 1 && MatMul(u, v, 1, |u|, 1)[0] == DotProduct(u, v)
  {
    var n := |u|;
    MatMulEntries(u, v, 1, n, 1);
    forall k | 0 <= k < n ensures Term(u, v, 1, n, 0, 0)(k) == DotTerm(u, v)(k) {
      assert Get(u, 1, 0, k) == Comp(u, k);
      assert Get(v, n, k, 0) == Comp(v, k);
    }
    SumExt(n, Term(u, v, 1, n, 0, 0), DotTerm(u, v));
    assert Get(MatMul(u, v, 1, n, 1), 1, 0, 0) == MatMul(u, v, 1, n, 1)[0];
  }

  /** The sum of the squared components, folded left to right from 0. */
  function SumSquares(u: seq<real>): real
  {
    Sum(|u|, DotTerm(u, u))
  }

  /** A sum of squares is never negative. */
  lemma SumSquaresNonnegative(u: seq<real>)
    ensures SumSquares(u) >= 0.0
  {
    forall k | 0 <= k < |u| ensures DotTerm(u, u)(k) >= 0.0 {
      var x := Comp(u, k);
      assert DotTerm(u, u)(k) == x * x;
    }
    SumNonnegative(|u|, DotTerm(u, u));
  }

  /** `sqrt` gives the nonnegative square root of every number that is not negative, as `Math.sqrt` does. */
  ghost predicate IsSquareRoot(sqrt: real -> real)
  {
    forall x :: 0.0 <= x ==> 0.0 <= sqrt(x) && sqrt(x) * sqrt(x) == x
  }

  /** Every component multiplied by s. */
  function Scaled(u: seq<real>, s: real): (r: seq<real>)
    ensures |r| == |u|
  {
    seq(|u|, i requires 0 <= i < |u| => u[i] * s)
  }

  /** Every component divided by d. */
  function Shrunk(u: seq<real>, d: real): (r: seq<real>)
    requires d != 0.0
    ensures |r| == |u|
  {
    seq(|u|, i requires 0 <= i < |u| => u[i] / d)
  }

  /** Every component multiplied by -1. */
  function Negated(u: seq<real>): (r: seq<real>)
    ensures |r| == |u|
  {
    seq(|u|, i requires 0 <= i < |u| => u[i] * -1.0)
  }

  /** Componentwise u - v over the components of u. */
  function Difference(u: seq<real>, v: seq<real>): (r: seq<real>)
    requires |v| >= |u|
    ensures |r| == |u|
  {
    seq(|u|, i requires 0 <= i < |u| => u[i] - v[i])
  }

  /** Inverting twice restores the vector, and inverting is scaling by -1. */
  lemma NegatedInvolution(u: seq<real>)
    ensures Negated(Negated(u)) == u && Negated(u) == Scaled(u, -1.0)
  {
    assert forall i | 0 <= i < |u| :: Negated(Negated(u))[i] == u[i];
  }

  /** Scaling by a and then by b is scaling by a * b; scaling by 1 changes nothing. */
  lemma ScaledCompose(u: seq<real>, a: real, b: real)
    ensures Scaled(Scaled(u, a), b) == Scaled(u, a * b) && Scaled(u, 1.0) == u
  {
    forall i | 0 <= i < |u| ensures Scaled(Scaled(u, a), b)[i] == Scaled(u, a * b)[i] {
      Reassoc(u[i], a, b);
    }
  }

  /** Subtracting v and adding it back restores u; subtracting u from itself gives zeros. */
  lemma DifferenceRoundTrip(u: seq<real>, v: seq<real>)
    requires |v| >= |u|
    ensures forall i :: 0 <= i < |u| ==> Difference(u, v)[i] + v[i] == u[i]
    ensures forall i :: 0 <= i < |u| ==> Difference(u, u)[i] == 0.0
  {
  }

  /** One component of SumSquaresScaled. */
  lemma SquareScaled(x: real, s: real)
    ensures (x * s) * (x * s) == (s * s) * (x * x)
  {
  }

  /**
   * The squared magnitude of a scaled vector is s * s times the squared magnitude: the
   * magnitude of the live components follows every `scale`.
   */
  lemma SumSquaresScaled(u: seq<real>, s: real)
    ensures SumSquares(Scaled(u, s)) == (s * s) * SumSquares(u)
  {
    var v := Scaled(u, s);
    forall k | 0 <= k < |u| ensures DotTerm(v, v)(k) == (s * s) * DotTerm(u, u)(k) {
      var x := u[k];
      assert Comp(v, k) == x * s;
      SquareScaled(x, s);
    }
    SumScale(|u|, DotTerm(u, u), s * s, DotTerm(v, v));
  }

  /** Every vector in vs has n components. */
  predicate SameDimension(vs: seq<seq<real>>, n: nat)
  {
    forall k :: 0 <= k < |vs| ==> |vs[k]| == n
  }

  function IsSquareNumber(x: nat): bool
  {
    ISqrt(x) * ISqrt(x) == x
  }

  /**
   * Entry (r, j) of the matrix `cross` builds for component i: column j holds the
   * indicator of j == i, then u[j], then the j-th component of each vector in vs.
   */
  function CrossEntryF(u: seq<real>, vs: seq<seq<real>>, i: int): (int, int) -> real
  {
    (r, j) =>
      if r == 0 then (if i == j then 1.0 else 0.0)
      else if r == 1 then Comp(u, j)
      else if 2 <= r < |vs| + 2 then Comp(vs[r - 2], j)
      else 0.0
  }

  /** The pushed buffer: |u| columns of |vs| + 2 entries each. */
  function CrossBlock(u: seq<real>, vs: seq<seq<real>>, i: int): (r: seq<real>)
    ensures |r| == (|vs| + 2) * |u|
  {
    Build(|vs| + 2, |u|, CrossEntryF(u, vs, i))
  }

  /** Component i of the cross product: the determinant of the block read as a square matrix. */
  function CrossComponent(u: seq<real>, vs: seq<seq<real>>, i: int): real
  {
    var b := CrossBlock(u, vs, i);
    if IsSquareNumber(|b|) then DetOf(b, ISqrt(|b|)) else 0.0
  }

  function CrossProduct(u: seq<real>, vs: seq<seq<real>>): (r: seq<real>)
    ensures |r| == |u|
  {
    seq(|u|, i => CrossComponent(u, vs, i))
  }

  /**
   * With vs = [v] and three components, the block is the 3 x 3 matrix whose rows are the
   * i-th unit vector, u and v, the matrix whose determinant is component i of u x v.
   */
  lemma CrossBlock3(u: seq<real>, v: seq<real>, i: int)
    requires |u| == 3 && |v| == 3
    ensures IsSquareNumber(|CrossBlock(u, [v], i)|) && ISqrt(|CrossBlock(u, [v], i)|) == 3
    ensures forall j :: 0 <= j < 3 ==>
      Get(CrossBlock(u, [v], i), 3, 0, j) == (if i == j then 1.0 else 0.0) &&
      Get(CrossBlock(u, [v], i), 3, 1, j) == u[j] &&
      Get(CrossBlock(u, [v], i), 3, 2, j) == v[j]
  {
    ISqrtOfSquare(3);
    var F := CrossEntryF(u, [v], i);
    BuildGet(3, 3, F);
    forall j | 0 <= j < 3
      ensures Get(Build(3, 3, F), 3, 0, j) == (if i == j then 1.0 else 0.0)
      ensures Get(Build(3, 3, F), 3, 1, j) == u[j] && Get(Build(3, 3, F), 3, 2, j) == v[j]
    {
      assert F(0, j) == (if i == j then 1.0 else 0.0);
      assert F(1, j) == Comp(u, j) == u[j];
      assert F(2, j) == Comp([v][0], j) == v[j];
    }
  }

  /** Component i of the cross product of two 3-vectors is the expansion of the block for i. */
  lemma CrossComponent3(u: seq<real>, v: seq<real>, i: int)
    requires |u| == 3 && |v| == 3
    ensures CrossComponent(u, [v], i) ==
      Expansion3(if i == 0 then 1.0 else 0.0, if i == 1 then 1.0 else 0.0, if i == 2 then 1.0 else 0.0,
                 u[0], u[1], u[2], v[0], v[1], v[2])
  {
    var b := CrossBlock(u, [v], i);
    CrossBlock3(u, v, i);
    DetOf3(b);
    assert Get(b, 3, 0, 0) == (if i == 0 then 1.0 else 0.0) && Get(b, 3, 1, 0) == u[0] && Get(b, 3, 2, 0) == v[0];
    assert Get(b, 3, 0, 1) == (if i == 1 then 1.0 else 0.0) && Get(b, 3, 1, 1) == u[1] && Get(b, 3, 2, 1) == v[1];
    assert Get(b, 3, 0, 2) == (if i == 2 then 1.0 else 0.0) && Get(b, 3, 1, 2) == u[2] && Get(b, 3, 2, 2) == v[2];
  }

  /** Expanded along a unit first row, the expansion is a 2 x 2 minor of the other two rows. */
  lemma UnitRowExpansion(a: real, b: real, c: real, d: real, e: real, f: real)
    ensures Expansion3(1.0, 0.0, 0.0, a, b, c, d, e, f) == b * f - c * e
    ensures Expansion3(0.0, 1.0, 0.0, a, b, c, d, e, f) == c * d - a * f
    ensures Expansion3(0.0, 0.0, 1.0, a, b, c, d, e, f) == a * e - b * d
  {
  }

  /** The three components of the cross product of two 3-vectors. */
  lemma CrossComponents3(u: seq<real>, v: seq<real>)
    requires |u| == 3 && |v| == 3
    ensures CrossComponent(u, [v], 0) == u[1] * v[2] - u[2] * v[1]
    ensures CrossComponent(u, [v], 1) == u[2] * v[0] - u[0] * v[2]
    ensures CrossComponent(u, [v], 2) == u[0] * v[1] - u[1] * v[0]
  {
    CrossComponent3(u, v, 0);
    CrossComponent3(u, v, 1);
    CrossComponent3(u, v, 2);
    UnitRowExpansion(u[0], u[1], u[2], v[0], v[1], v[2]);
  }

  /**
   * For two 3-vectors, `cross` with a single argument is the familiar cross product
   * (u1 v2 - u2 v1, u2 v0 - u0 v2, u0 v1 - u1 v0).
   */
  lemma CrossProduct3(u: seq<real>, v: seq<real>)
    requires |u| == 3 && |v| == 3
    ensures CrossProduct(u, [v]) == [u[1] * v[2] - u[2] * v[1], u[2] * v[0] - u[0] * v[2], u[0] * v[1] - u[1] * v[0]]
  {
    var c := CrossProduct(u, [v]);
    var x, y, z := CrossComponent(u, [v], 0), CrossComponent(u, [v], 1), CrossComponent(u, [v], 2);
    assert c == [x, y, z];
    CrossComponents3(u, v);
  }

  /** ... and so it is the product `V3.cross` of math.js computes. */
  lemma CrossProductIsCross3(u: seq<real>, v: seq<real>)
    requires |u| == 3 && |v| == 3
    ensures var c := CrossProduct(u, [v]);
      FixedVectors.Cross3(FixedVectors.Triple(u[0], u[1], u[2]), FixedVectors.Triple(v[0], v[1], v[2])) ==
      FixedVectors.Triple(c[0], c[1], c[2])
  {
    CrossProduct3(u, v);
    Cross3Of(u, v);
  }

  /** `V3.cross` on the components of two 3-vectors. */
  lemma Cross3Of(u: seq<real>, v: seq<real>)
    requires |u| == 3 && |v| == 3
    ensures FixedVectors.Cross3(FixedVectors.Triple(u[0], u[1], u[2]), FixedVectors.Triple(v[0], v[1], v[2])) ==
      FixedVectors.Triple(u[1] * v[2] - u[2] * v[1], u[2] * v[0] - u[0] * v[2], u[0] * v[1] - u[1] * v[0])
  {
  }

  /** The contents of each vector in vs. */
  function ContentsOf(vs: seq<Vec>): (r: seq<seq<real>>)
    reads set k | 0 <= k < |vs| :: vs[k]
    ensures |r| == |vs| && forall k :: 0 <= k < |vs| ==> r[k] == vs[k].contents
  {
    seq(|vs|, k reads set t | 0 <= t < |vs| :: vs[t] requires 0 <= k < |vs| => vs[k].contents)
  }

  class Vec {
    /** The live components, the entries of the underlying `Mat`. */
    var contents: seq<real>
    /** The array the vector was constructed from. */
    var data: seq<real>

    /** `new Vec(data)`: a |data| x 1 matrix holding data, with `data` kept as given. */
    constructor (data: seq<real>)
      ensures contents == data && this.data == data
    {
      var m := new Mat(General, data, |data|, 1);
      contents := m.contents;
      this.data := data;
    }

    /** `equals`: false on a dimension mismatch or on the first pair further apart than the tolerance. */
    method Equals(other: Vec) returns (r: bool)
      ensures r <==> Close(contents, other.contents)
    {
      if |other.contents| != |contents| {
        return false;
      }
      var i := 0;
      while i < |contents|
        invariant 0 <= i <= |contents|
        invariant forall t :: 0 <= t < i ==> Abs(contents[t] - other.contents[t]) <= Tolerance
      {
        if Abs(contents[i] - other.contents[i]) > Tolerance {
          return false;
        }
        i := i + 1;
      }
      return true;
    }

    /**
     * `mag`: the square root of the sum of squares of `data`, the constructor's array, and
     * not of the live components.
     */
    function Mag(sqrt: real -> real): (r: real)
      reads this
      ensures IsSquareRoot(sqrt) ==> 0.0 <= r && r * r == SumSquares(data)
      ensures data == contents ==> r == MagLive(sqrt)
    {
      SumSquaresNonnegative(data);
      sqrt(SumSquares(data))
    }

    /** The magnitude of the live components, the value `mag` is evidently meant to return. */
    function MagLive(sqrt: real -> real): (r: real)
      reads this
      ensures IsSquareRoot(sqrt) ==> 0.0 <= r && r * r == SumSquares(contents)
    {
      SumSquaresNonnegative(contents);
      sqrt(SumSquares(contents))
    }

    /** `scale`: every component multiplied by s in place. */
    method Scale(s: real)
      modifies this
      ensures contents == Scaled(old(contents), s) && data == old(data)
    {
      ghost var u := contents;
      var i := 0;
      while i < |contents|
        invariant 0 <= i <= |contents| == |u|
        invariant forall t :: 0 <= t < |u| ==> contents[t] == if t < i then u[t] * s else u[t]
        invariant data == old(data)
      {
        contents := contents[i := contents[i] * s];
        i := i + 1;
      }
      assert forall t :: 0 <= t < |u| ==> contents[t] == Scaled(u, s)[t];
    }

    /** `normalize`: every component divided by `mag`, computed once before the loop. */
    method Normalize(sqrt: real -> real)
      requires Mag(sqrt) != 0.0
      modifies this
      ensures contents == Shrunk(old(contents), old(Mag(sqrt))) && data == old(data)
    {
      ghost var u := contents;
      var mag := Mag(sqrt);
      var i := 0;
      while i < |contents|
        invariant 0 <= i <= |contents| == |u|
        invariant forall t :: 0 <= t < |u| ==> contents[t] == if t < i then u[t] / mag else u[t]
        invariant data == old(data)
      {
        contents := contents[i := contents[i] / mag];
        i := i + 1;
      }
      assert forall t :: 0 <= t < |u| ==> contents[t] == Shrunk(u, mag)[t];
    }

    /** `invert`: every component multiplied by -1 in place. */
    method Invert()
      modifies this
      ensures contents == Negated(old(contents)) && data == old(data)
    {
      ghost var u := contents;
      var i := 0;
      while i < |contents|
        invariant 0 <= i <= |contents| == |u|
        invariant forall t :: 0 <= t < |u| ==> contents[t] == if t < i then u[t] * -1.0 else u[t]
        invariant data == old(data)
      {
        contents := contents[i := contents[i] * -1.0];
        i := i + 1;
      }
      assert forall t :: 0 <= t < |u| ==> contents[t] == Negated(u)[t];
    }

    /**
     * `subtract`: component i loses other's component i, for every component of this
     * vector; other may be this vector itself.
     */
    method Subtract(other: Vec)
      requires |other.contents| >= |contents|
      modifies this
      ensures contents == Difference(old(contents), old(other.contents)) && data == old(data)
    {
      ghost var u, v := contents, other.contents;
      var i := 0;
      while i < |contents|
        invariant 0 <= i <= |contents| == |u|
        invariant forall t :: 0 <= t < |u| ==> contents[t] == if t < i then u[t] - v[t] else u[t]
        invariant data == old(data)
        invariant |other.contents| == |v| && forall t :: i <= t < |v| ==> other.contents[t] == v[t]
      {
        contents := contents[i := contents[i] - other.contents[i]];
        i := i + 1;
      }
      assert forall t :: 0 <= t < |u| ==> contents[t] == Difference(u, v)[t];
    }

    /** `dot`: the dot product, or an error when the dimensions differ. */
    method Dot(other: Vec) returns (r: Result<real>)
      ensures r.Ok? <==> |other.contents| == |contents|
      ensures r.Ok? ==> r.value == DotProduct(contents, other.contents)
      ensures r.Err? ==> r.msg == "dimension mismatch"
    {
      if |other.contents| != |contents| {
        return Err("dimension mismatch");
      }
      var res := 0.0;
      var i := 0;
      while i < |contents|
        invariant 0 <= i <= |contents|
        invariant res == Sum(i, DotTerm(contents, other.contents))
      {
        res := res + contents[i] * other.contents[i];
        i := i + 1;
      }
      return Ok(res);
    }

    /** `set`: the components overwritten one by one, or an error when the dimensions differ. */
    method Set(values: seq<real>) returns (r: Outcome)
      modifies this
      ensures r.Done? <==> |values| == |old(contents)|
      ensures r.Done? ==> contents == values
      ensures r.Failed? ==> contents == old(contents) && r.msg == "dimension mismatch"
      ensures data == old(data)
    {
      if |values| != |contents| {
        return Failed("dimension mismatch");
      }
      var i := 0;
      while i < |contents|
        invariant 0 <= i <= |contents| == |values|
        invariant forall t :: 0 <= t < |values| ==> contents[t] == if t < i then values[t] else old(contents)[t]
        invariant data == old(data)
      {
        contents := contents[i := values[i]];
        i := i + 1;
      }
      return Done;
    }

    /** `clone`: a fresh vector whose components and constructor array are the current components. */
    method Clone() returns (c: Vec)
      ensures fresh(c) && c.contents == contents && c.data == contents
    {
      var copy: seq<real> := [];
      var i := 0;
      while i < |contents|
        invariant 0 <= i <= |contents| && copy == contents[..i]
      {
        copy := copy + [contents[i]];
        i := i + 1;
      }
      c := new Vec(copy);
    }

    /**
     * The buffer `cross` pushes for component i: for each column j the indicator of
     * j == i, this[j], then every vecs[k][j], with the dimension check of each vecs[k]
     * made as it is reached.
     */
    method CrossBlockData(vecs: seq<Vec>, i: int) returns (r: Result<seq<real>>)
      requires 0 < |contents|
      ensures r.Err? <==> !SameDimension(ContentsOf(vecs), |contents|)
      ensures r.Err? ==> r.msg == "cant cross vecs of different dimension"
      ensures r.Ok? ==> r.value == CrossBlock(contents, ContentsOf(vecs), i)
    {
      ghost var vs := ContentsOf(vecs);
      ghost var F := CrossEntryF(contents, vs, i);
      var rows := |vecs| + 2;
      var mat: seq<real> := [];
      var j := 0;
      while j < |contents|
        invariant 0 <= j <= |contents|
        invariant j > 0 ==> SameDimension(vs, |contents|)
        invariant mat == Build(rows, j, F)
      {
        assert Column(rows, j, F)[..0] == [];
        BuildPush(rows, j, 0, F);
        assert F(0, j) == if i == j then 1.0 else 0.0;
        mat := mat + [if i == j then 1.0 else 0.0];
        assert mat == Build(rows, j, F) + Column(rows, j, F)[..1];
        BuildPush(rows, j, 1, F);
        assert F(1, j) == Comp(contents, j) == contents[j];
        mat := mat + [contents[j]];
        assert mat == Build(rows, j, F) + Column(rows, j, F)[..2];
        var k := 0;
        while k < |vecs|
          invariant 0 <= k <= |vecs|
          invariant forall t :: 0 <= t < k ==> |vs[t]| == |contents|
          invariant mat == Build(rows, j, F) + Column(rows, j, F)[..k + 2]
        {
          // The source pushes vecs[k][j] before this check; the buffer is dropped on the throw.
          if |vecs[k].contents| != |contents| {
            return Err("cant cross vecs of different dimension");
          }
          BuildPush(rows, j, k + 2, F);
          mat := mat + [vecs[k].contents[j]];
          k := k + 1;
        }
        BuildNextColumn(rows, j, F);
        j := j + 1;
      }
      return Ok(mat);
    }

    /**
     * `cross`: component i is the determinant of the block for i, read as a square matrix;
     * the first dimension mismatch among vecs, or a block whose length is not a square,
     * throws.
     */
    method Cross(vecs: seq<Vec>) returns (r: Result<Vec>)
      ensures var u, vs := contents, ContentsOf(vecs);
        (r.Err? <==> |u| > 0 && (!SameDimension(vs, |u|) || !IsSquareNumber((|vs| + 2) * |u|))) &&
        (r.Err? ==> r.msg == if !SameDimension(vs, |u|) then "cant cross vecs of different dimension"
                             else "contents size is not perfect square") &&
        (r.Ok? ==> fresh(r.value) && r.value.contents == CrossProduct(u, vs) && r.value.data == r.value.contents)
    {
      ghost var vs := ContentsOf(vecs);
      var cross: seq<real> := [];
      var i := 0;
      while i < |contents|
        invariant 0 <= i <= |contents|
        invariant i > 0 ==> SameDimension(vs, |contents|) && IsSquareNumber((|vs| + 2) * |contents|)
        invariant cross == CrossProduct(contents, vs)[..i]
      {
        var block := CrossBlockData(vecs, i);
        assert ContentsOf(vecs) == vs;
        if block.Err? {
          return Err(block.msg);
        }
        var sq := Mat.NewSquare(block.value);
        assert |block.value| == (|vs| + 2) * |contents|;
        if sq.Err? {
          return Err(sq.msg);
        }
        var det := sq.value.Det();
        assert det == CrossComponent(contents, vs, i);
        cross := cross + [det];
        assert cross == CrossProduct(contents, vs)[..i + 1];
        i := i + 1;
      }
      assert cross == CrossProduct(contents, vs);
      var res := new Vec(cross);
      return Ok(res);
    }
  }

  /**
   * `mag` keeps reporting the magnitude of the constructor's array: after [1] is scaled
   * to [2], it still returns sqrt(1), while the live components have magnitude sqrt(4).
   */
  method MagAfterScale(sqrt: real -> real) returns (before: real, after: real, live: real)
    ensures before == sqrt(1.0) && after == sqrt(1.0) && live == sqrt(4.0)
  {
    var v := new Vec([1.0]);
    before := v.Mag(sqrt);
    v.Scale(2.0);
    after := v.Mag(sqrt);
    live := v.MagLive(sqrt);
    assert v.contents == [2.0];
    assert DotTerm([1.0], [1.0])(0) == 1.0 && DotTerm([2.0], [2.0])(0) == 4.0;
    assert Sum(1, DotTerm([1.0], [1.0])) == Sum(0, DotTerm([1.0], [1.0])) + 1.0;
    assert Sum(1, DotTerm([2.0], [2.0])) == Sum(0, DotTerm([2.0], [2.0])) + 4.0;
  }

  /**
   * The live magnitude follows `scale`: after scaling by s it is the root of s * s times
   * the squared magnitude before.
   */
  method MagLiveAfterScale(v: Vec, s: real, sqrt: real -> real) returns (m: real)
    modifies v
    ensures m == sqrt(SumSquares(v.contents)) && SumSquares(v.contents) == (s * s) * SumSquares(old(v.contents))
  {
    ghost var u := v.contents;
    v.Scale(s);
    m := v.MagLive(sqrt);
    SumSquaresScaled(u, s);
  }
}
