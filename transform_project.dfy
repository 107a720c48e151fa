/**
 * `ModelTransform` of final_project/modeltransform.js, built on the generic matrix library
 * of final_project/common/matrix.js.  Its vectors are `Vec` objects read by component, its
 * `modelMatrix` a `Mat`.  `updateMatrix` multiplies with `Mat.mult`, which returns a plain
 * `Mat`, so the `reset` of `SquareMat` is no longer there for `reset` to call; the class
 * below multiplies with `SquareMat.mult`, and `UpdateMatrixAsWritten` keeps `Mat.mult`.
 */
module ProjectTransform {
  import opened Wrappers
  import opened Layout
  import opened Shapes
  import opened Trigonometry
  import opened FixedVectors
  import opened FixedMatrices
  import opened Matrix
  import opened Vectors
  import LightingTransform

  /** The message of the `TypeError` JavaScript throws on calling a method an object lacks. */
  const NoReset := "modelMatrix.reset is not a function"

  /** The side of every matrix `updateMatrix` multiplies. */
  const Four: nat := 4

  /** a multiplied on the right by each of the factors in turn, with the library's `__mult__` product. */
  function Product(a: seq<real>, factors: seq<seq<real>>): (r: seq<real>)
    requires |a| == 16 && forall k :: 0 <= k < |factors| ==> |factors[k]| == 16
    ensures |r| == 16
    decreases |factors|
  {
    if factors == [] then a
    else MatMul(Product(a, factors[..|factors| - 1]), factors[|factors| - 1], Four, Four, Four)
  }

  /** On 4 x 4 matrices the library's product chain is lab8's `multM4` chain. */
  lemma {:induction false} ProductIs4(a: seq<real>, factors: seq<seq<real>>)
    requires |a| == 16 && forall k :: 0 <= k < |factors| ==> |factors[k]| == 16
    ensures Product(a, factors) == Product4(a, factors)
    decreases |factors|
  {
    if factors != [] {
      var init := factors[..|factors| - 1];
      ProductIs4(a, init);
      Mult4IsMatMul(Product4(a, init), factors[|factors| - 1]);
    }
  }

  /**
   * The factors `updateMatrix` multiplies onto the translation: the padded `SquareMat3`
   * yaw, pitch and roll rotations, which by `PaddedRotationY`, `X` and `Z` are the 4 x 4 rotations of
   * lab8, and `SquareMat.scale([sx, sy, sz, 1])`.
   */
  function Factors(t: Trig, rotation: Triple, scale: Triple): (r: seq<seq<real>>)
    ensures |r| == 4 && forall k :: 0 <= k < |r| ==> |r[k]| == 16
  {
    [RotationMatrixY(t, rotation.y), RotationMatrixX(t, rotation.x), RotationMatrixZ(t, rotation.z),
     Diagonal([scale.x, scale.y, scale.z, 1.0])]
  }

  /**
   * The matrix `updateMatrix` computes: `SquareMat.translation` to the position, multiplied
   * on the right by each factor in turn.
   */
  function ModelMatrix(t: Trig, position: Triple, rotation: Triple, scale: Triple): (r: seq<real>)
    ensures |r| == 16
  {
    Product(Shapes.Translation([position.x, position.y, position.z]), Factors(t, rotation, scale))
  }

  /** `SquareMat.translation([x, y, z])` is the translation of lab8's `M4.translationMatrix`. */
  lemma TranslationIs4(x: real, y: real, z: real)
    ensures Shapes.Translation([x, y, z]) == Translation4(x, y, z)
  {
    Build4(TranslationF([x, y, z]));
  }

  /** `SquareMat.scale([x, y, z, 1])` is lab8's `M4.scaleMatrix(x, y, z)`. */
  lemma ScaleIs4(x: real, y: real, z: real)
    ensures Diagonal([x, y, z, 1.0]) == Scale4(x, y, z)
  {
    Build4(DiagonalF([x, y, z, 1.0]));
  }

  /** A 3 x 3 matrix padded with the border of the identity, spelled out. */
  lemma PaddedIs4(a: seq<real>)
    requires |a| == 9
    ensures Shapes.Padded(a, 3) == [a[0], a[1], a[2], 0.0, a[3], a[4], a[5], 0.0, a[6], a[7], a[8], 0.0, 0.0, 0.0, 0.0, 1.0]
  {
    Build4(PaddedF(a, 3));
  }

  /** `rot(3, 2, 0, theta).padded()`, the padded `SquareMat3.roty`, is lab8's `M4.rotationMatrixY`. */
  lemma PaddedRotationY(c: real, s: real)
    ensures Shapes.Padded(Rotation(3, 2, 0, c, s), 3) == RotationY4(c, s)
  {
    Rotations3(c, s);
    PaddedIs4([c, 0.0, -s, 0.0, 1.0, 0.0, s, 0.0, c]);
  }

  /** `rot(3, 1, 2, theta).padded()`, the padded `SquareMat3.rotx`, is lab8's `M4.rotationMatrixX`. */
  lemma PaddedRotationX(c: real, s: real)
    ensures Shapes.Padded(Rotation(3, 1, 2, c, s), 3) == RotationX4(c, s)
  {
    Rotations3(c, s);
    PaddedIs4([1.0, 0.0, 0.0, 0.0, c, s, 0.0, -s, c]);
  }

  /** `rot(3, 0, 1, theta).padded()`, the padded `SquareMat3.rotz`, is lab8's `M4.rotationMatrixZ`. */
  lemma PaddedRotationZ(c: real, s: real)
    ensures Shapes.Padded(Rotation(3, 0, 1, c, s), 3) == RotationZ4(c, s)
  {
    Rotations3(c, s);
    PaddedIs4([c, s, 0.0, -s, c, 0.0, 0.0, 0.0, 1.0]);
  }

  /**
   * The generic library composes the same matrix as lab8's fixed-size one, so the final
   * project places a model as lab8 does.
   */
  lemma MatchesLighting(t: Trig, position: Triple, rotation: Triple, scale: Triple)
    ensures ModelMatrix(t, position, rotation, scale) == LightingTransform.ModelMatrix(t, position, rotation, scale)
  {
    var m := Shapes.Translation([position.x, position.y, position.z]);
    TranslationIs4(position.x, position.y, position.z);
    ScaleIs4(scale.x, scale.y, scale.z);
    assert Factors(t, rotation, scale) == LightingTransform.Factors(t, rotation, scale);
    ProductIs4(m, Factors(t, rotation, scale));
  }

  /** Entries 12 to 14 of the model matrix are the position, and its bottom row is (0, 0, 0, 1). */
  lemma ModelMatrixPosition(t: Trig, position: Triple, rotation: Triple, scale: Triple)
    ensures ModelMatrix(t, position, rotation, scale)[12..] == [position.x, position.y, position.z, 1.0]
    ensures Affine4(ModelMatrix(t, position, rotation, scale))
  {
    MatchesLighting(t, position, rotation, scale);
    LightingTransform.ModelMatrixPosition(t, position, rotation, scale);
  }

  /** With cos 0 = 1 and sin 0 = 0, the default vectors give the identity. */
  lemma DefaultModelMatrix(t: Trig)
    requires t.ExactAtZero()
    ensures ModelMatrix(t, Zero3, Zero3, Triple(1.0, 1.0, 1.0)) == Layout.Identity(4)
  {
    MatchesLighting(t, Zero3, Zero3, Triple(1.0, 1.0, 1.0));
    LightingTransform.DefaultModelMatrix(t);
    Build4(Delta());
  }

  /** The first three components of a vector, as its `x`, `y` and `z` getters read them. */
  function Components(v: seq<real>): Triple
    requires |v| >= 3
  {
    Triple(v[0], v[1], v[2])
  }

  /** `SquareMat3.roty(angle).padded()`: a new 4 x 4 `SquareMat`. */
  method PaddedRotY(t: Trig, angle: real) returns (m: Mat)
    ensures fresh(m) && m.Valid() && m.m == 4 && m.n == 4 && m.contents == RotationMatrixY(t, angle)
  {
    var c, s := t.Cos(t.Radians(angle)), t.Sin(t.Radians(angle));
    var r := Mat.RotY(c, s);
    m := r.Padded();
    PaddedIs4(r.contents);
  }

  /** `SquareMat3.rotx(angle).padded()`: a new 4 x 4 `SquareMat`. */
  method PaddedRotX(t: Trig, angle: real) returns (m: Mat)
    ensures fresh(m) && m.Valid() && m.m == 4 && m.n == 4 && m.contents == RotationMatrixX(t, angle)
  {
    var c, s := t.Cos(t.Radians(angle)), t.Sin(t.Radians(angle));
    var r := Mat.RotX(c, s);
    m := r.Padded();
    PaddedIs4(r.contents);
  }

  /** `SquareMat3.rotz(angle).padded()`: a new 4 x 4 `SquareMat`. */
  method PaddedRotZ(t: Trig, angle: real) returns (m: Mat)
    ensures fresh(m) && m.Valid() && m.m == 4 && m.n == 4 && m.contents == RotationMatrixZ(t, angle)
  {
    var c, s := t.Cos(t.Radians(angle)), t.Sin(t.Radians(angle));
    var r := Mat.RotZ(c, s);
    m := r.Padded();
    PaddedIs4(r.contents);
  }

  /**
   * The five assignments of `updateMatrix` as written: the translation, then `Mat.mult`
   * with each factor in turn.  The result is a plain `Mat`.
   */
  method ComposeAsWritten(t: Trig, position: Triple, rotation: Triple, scale: Triple) returns (m: Mat)
    ensures fresh(m) && m.Valid() && m.kind == General && m.m == 4 && m.n == 4
    ensures m.contents == ModelMatrix(t, position, rotation, scale)
  {
    var ry := PaddedRotY(t, rotation.y);
    var rx := PaddedRotX(t, rotation.x);
    var rz := PaddedRotZ(t, rotation.z);
    var s := Mat.Scale([scale.x, scale.y, scale.z, 1.0]);
    m := Mat.Translation([position.x, position.y, position.z]);
    TranslationIs4(position.x, position.y, position.z);
    ScaleIs4(scale.x, scale.y, scale.z);
    var p1 := Mat.Mult(m, ry);
    Mult4IsMatMul(m.contents, ry.contents);
    m := p1.value;
    var p2 := Mat.Mult(m, rx);
    Mult4IsMatMul(m.contents, rx.contents);
    m := p2.value;
    var p3 := Mat.Mult(m, rz);
    Mult4IsMatMul(m.contents, rz.contents);
    m := p3.value;
    var p4 := Mat.Mult(m, s);
    Mult4IsMatMul(m.contents, s.contents);
    m := p4.value;
    LightingTransform.ModelMatrixChain(t, position, rotation, scale);
    MatchesLighting(t, position, rotation, scale);
  }

  /** The same assignments with `SquareMat.mult`, which keeps the result a `SquareMat`. */
  method Compose(t: Trig, position: Triple, rotation: Triple, scale: Triple) returns (m: Mat)
    ensures fresh(m) && m.IsSquare() && m.n == 4
    ensures m.contents == ModelMatrix(t, position, rotation, scale)
  {
    var ry := PaddedRotY(t, rotation.y);
    var rx := PaddedRotX(t, rotation.x);
    var rz := PaddedRotZ(t, rotation.z);
    var s := Mat.Scale([scale.x, scale.y, scale.z, 1.0]);
    m := Mat.Translation([position.x, position.y, position.z]);
    TranslationIs4(position.x, position.y, position.z);
    ScaleIs4(scale.x, scale.y, scale.z);
    ISqrtOfSquare(4);
    var p1 := Mat.SquareMult(m, ry);
    Mult4IsMatMul(m.contents, ry.contents);
    m := p1.value;
    var p2 := Mat.SquareMult(m, rx);
    Mult4IsMatMul(m.contents, rx.contents);
    m := p2.value;
    var p3 := Mat.SquareMult(m, rz);
    Mult4IsMatMul(m.contents, rz.contents);
    m := p3.value;
    var p4 := Mat.SquareMult(m, s);
    Mult4IsMatMul(m.contents, s.contents);
    m := p4.value;
    LightingTransform.ModelMatrixChain(t, position, rotation, scale);
    MatchesLighting(t, position, rotation, scale);
  }

  /** `SquareMat4.identity()`: a new `SquareMat` of the sixteen entries of the identity. */
  method SquareIdentity4() returns (m: Mat)
    ensures fresh(m) && m.IsSquare() && m.n == 4 && m.contents == Identity4
  {
    ISqrtOfSquare(4);
    var r := Mat.NewSquare(Identity4);
    m := r.value;
  }

  /** A copy of the vector given, or a new vector of the default components when none is. */
  method CloneOr(v: Option<Vec>, default: seq<real>) returns (c: Vec)
    ensures fresh(c) && c.contents == if v.Some? then v.value.contents else default
  {
    if v.Some? {
      c := v.value.Clone();
    } else {
      c := new Vec(default);
    }
  }

  /** The vector given itself, or a new vector [0, 0, 0] when none is. */
  method SameOr(v: Option<Vec>) returns (c: Vec)
    ensures v.Some? ==> c == v.value
    ensures v.None? ==> fresh(c) && c.contents == [0.0, 0.0, 0.0]
  {
    if v.Some? {
      c := v.value;
    } else {
      c := new Vec([0.0, 0.0, 0.0]);
    }
  }

  class ModelTransform {
    /** `Math.sin`, `Math.cos` and `Math.PI` as the object sees them. */
    const trig: Trig
    var position: Vec
    var rotation: Vec
    var scale: Vec
    var modelMatrix: Mat

    /**
     * The vectors are distinct and have an `x`, `y` and `z` component to read, and the
     * matrix is a valid 4 x 4 buffer.
     */
    predicate Valid()
      reads this, position, rotation, scale, modelMatrix
    {
      modelMatrix.Valid() && modelMatrix.m == 4 && modelMatrix.n == 4 &&
      |position.contents| >= 3 && |rotation.contents| >= 3 && |scale.contents| >= 3 &&
      position != rotation && position != scale && rotation != scale
    }

    /** The matrix the current vectors determine. */
    function Expected(): seq<real>
      reads this, position, rotation, scale
      requires |position.contents| >= 3 && |rotation.contents| >= 3 && |scale.contents| >= 3
    {
      ModelMatrix(trig, Components(position.contents), Components(rotation.contents), Components(scale.contents))
    }

    /**
     * `new ModelTransform(mesh, material, position, rotation, scale)`: position and scale are
     * cloned, rotation is kept by reference, a missing one is [0, 0, 0], [0, 0, 0] and
     * [1, 1, 1]; `modelMatrix` starts as `SquareMat4.identity()`; then `updateMatrix`.
     */
    constructor (trig: Trig, position: Option<Vec>, rotation: Option<Vec>, scale: Option<Vec>)
      requires position.Some? ==> |position.value.contents| >= 3
      requires rotation.Some? ==> |rotation.value.contents| >= 3
      requires scale.Some? ==> |scale.value.contents| >= 3
      ensures Valid() && this.trig == trig && fresh(this.position) && fresh(this.scale) && fresh(modelMatrix)
      ensures this.position.contents == if position.Some? then position.value.contents else [0.0, 0.0, 0.0]
      ensures this.scale.contents == if scale.Some? then scale.value.contents else [1.0, 1.0, 1.0]
      ensures rotation.Some? ==> this.rotation == rotation.value
      ensures rotation.None? ==> fresh(this.rotation) && this.rotation.contents == [0.0, 0.0, 0.0]
      ensures modelMatrix.IsSquare() && modelMatrix.contents == Expected()
    {
      var p := CloneOr(position, [0.0, 0.0, 0.0]);
      var s := CloneOr(scale, [1.0, 1.0, 1.0]);
      var r := SameOr(rotation);
      var identity := SquareIdentity4();
      this.trig := trig;
      this.position, this.rotation, this.scale := p, r, s;
      modelMatrix := identity;
      new;
      assert this.position.contents == if position.Some? then position.value.contents else [0.0, 0.0, 0.0];
      assert this.scale.contents == if scale.Some? then scale.value.contents else [1.0, 1.0, 1.0];
      assert rotation.None? ==> this.rotation.contents == [0.0, 0.0, 0.0];
      UpdateMatrix();
    }

    /**
     * `updateMatrix` with `SquareMat.mult`: `modelMatrix` is replaced by a new `SquareMat`
     * composed from the vectors, which are read and not changed.
     */
    method UpdateMatrix()
      requires Valid()
      modifies this
      ensures Valid() && fresh(modelMatrix) && modelMatrix.IsSquare() && modelMatrix.contents == Expected()
      ensures position == old(position) && rotation == old(rotation) && scale == old(scale)
    {
      modelMatrix := Compose(trig, Components(position.contents), Components(rotation.contents), Components(scale.contents));
    }

    /** `updateMatrix` as written, with `Mat.mult`: the new matrix is a plain `Mat`. */
    method UpdateMatrixAsWritten()
      requires Valid()
      modifies this
      ensures Valid() && fresh(modelMatrix) && modelMatrix.kind == General && modelMatrix.contents == Expected()
      ensures position == old(position) && rotation == old(rotation) && scale == old(scale)
    {
      modelMatrix := ComposeAsWritten(trig, Components(position.contents), Components(rotation.contents), Components(scale.contents));
    }

    /** `update`: `updateMatrix`, then the object itself. */
    method Update() returns (r: ModelTransform)
      requires Valid()
      modifies this
      ensures r == this && Valid() && fresh(modelMatrix) && modelMatrix.IsSquare() && modelMatrix.contents == Expected()
      ensures position == old(position) && rotation == old(rotation) && scale == old(scale)
    {
      UpdateMatrix();
      return this;
    }

    /**
     * `reset`: `Vec.set` on position, scale and rotation in that order, each throwing when
     * its vector does not have exactly three components (the ones before it are already
     * set), then `modelMatrix.reset()`, which throws unless the matrix is a `SquareMat`.
     */
    method Reset() returns (r: Result<ModelTransform>)
      requires Valid()
      modifies position, scale, rotation, modelMatrix
      ensures Valid()
      ensures r.Ok? <==> |old(position.contents)| == 3 && |old(scale.contents)| == 3 && |old(rotation.contents)| == 3 && old(modelMatrix.kind) == Square
      ensures r.Ok? ==> r.value == this && modelMatrix.contents == Layout.Identity(4)
      ensures r.Err? ==> r.msg == if |old(position.contents)| == 3 && |old(scale.contents)| == 3 && |old(rotation.contents)| == 3 then NoReset else "dimension mismatch"
      ensures position.contents == if |old(position.contents)| == 3 then [0.0, 0.0, 0.0] else old(position.contents)
      ensures scale.contents == if |old(position.contents)| == 3 && |old(scale.contents)| == 3 then [1.0, 1.0, 1.0] else old(scale.contents)
      ensures rotation.contents == if |old(position.contents)| == 3 && |old(scale.contents)| == 3 && |old(rotation.contents)| == 3 then [0.0, 0.0, 0.0] else old(rotation.contents)
      ensures r.Err? ==> modelMatrix.contents == old(modelMatrix.contents)
      ensures modelMatrix.kind == old(modelMatrix.kind)
    {
      var p := position.Set([0.0, 0.0, 0.0]);
      if p.Failed? {
        return Err(p.msg);
      }
      var s := scale.Set([1.0, 1.0, 1.0]);
      if s.Failed? {
        return Err(s.msg);
      }
      var o := rotation.Set([0.0, 0.0, 0.0]);
      if o.Failed? {
        return Err(o.msg);
      }
      if modelMatrix.kind != Square {
        return Err(NoReset);
      }
      modelMatrix.Reset();
      return Ok(this);
    }
  }

  /** The model matrix of a transform built with the defaults is the identity. */
  method DefaultIsIdentity(trig: Trig) returns (m: seq<real>)
    requires trig.ExactAtZero()
    ensures m == Layout.Identity(4)
  {
    var mt := new ModelTransform(trig, None, None, None);
    m := mt.modelMatrix.contents;
    DefaultModelMatrix(trig);
  }

  /** A transform built with the defaults and then updated by `updateMatrix` as written. */
  method DefaultAsWritten(trig: Trig) returns (mt: ModelTransform)
    ensures fresh(mt) && fresh(mt.position) && fresh(mt.rotation) && fresh(mt.scale) && fresh(mt.modelMatrix)
    ensures mt.Valid() && mt.modelMatrix.kind == General
    ensures |mt.position.contents| == 3 && |mt.scale.contents| == 3 && |mt.rotation.contents| == 3
  {
    mt := new ModelTransform(trig, None, None, None);
    mt.UpdateMatrixAsWritten();
  }

  /** As written, `reset` on a transform fresh from the constructor always throws. */
  method ResetAsWritten(trig: Trig) returns (r: Result<ModelTransform>)
    ensures r == Err(NoReset)
  {
    var mt := DefaultAsWritten(trig);
    r := mt.Reset();
  }

  /** With `SquareMat.mult`, `reset` on a transform fresh from the constructor succeeds and gives the identity. */
  method ResetCorrected(trig: Trig) returns (r: Result<ModelTransform>, m: seq<real>)
    ensures r.Ok? && m == Layout.Identity(4)
  {
    var mt := new ModelTransform(trig, None, None, None);
    r := mt.Reset();
    m := mt.modelMatrix.contents;
  }
}
