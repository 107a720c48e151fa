/**
 * `ModelTransform` of lab8/lab08-lighting/modeltransform.js: the position, rotation
 * (pitch, yaw, roll in degrees) and scale of a model, and the 4 x 4 model matrix
 * `updateMatrix` builds from them with the `M4` static methods of lab8/common/math.js.
 * The rotation matrices need `Math.sin` and `Math.cos`, which the object is given as `trig`.
 */
module LightingTransform {
  import opened Wrappers
  import opened Trigonometry
  import opened FixedVectors
  import opened FixedMatrices

  /** The factors `updateMatrix` multiplies onto the translation, in order: yaw, pitch, roll, scale. */
  function Factors(t: Trig, rotation: Triple, scale: Triple): (r: seq<seq<real>>)
    ensures |r| == 4 && forall k :: 0 <= k < |r| ==> |r[k]| == 16
  {
    [RotationMatrixY(t, rotation.y), RotationMatrixX(t, rotation.x), RotationMatrixZ(t, rotation.z),
     Scale4(scale.x, scale.y, scale.z)]
  }

  /**
   * The matrix `updateMatrix` leaves in `modelMatrix`: the translation to `position`,
   * multiplied on the right by each of the factors in turn.
   */
  function ModelMatrix(t: Trig, position: Triple, rotation: Triple, scale: Triple): (r: seq<real>)
    ensures |r| == 16
  {
    Product4(Translation4(position.x, position.y, position.z), Factors(t, rotation, scale))
  }

  /** The chain written out, `((((T Ry) Rx) Rz) S)`, as the statements of `updateMatrix` compute it. */
  lemma ModelMatrixChain(t: Trig, position: Triple, rotation: Triple, scale: Triple)
    ensures ModelMatrix(t, position, rotation, scale)
         == Mult4(Mult4(Mult4(Mult4(Translation4(position.x, position.y, position.z), RotationMatrixY(t, rotation.y)),
                              RotationMatrixX(t, rotation.x)), RotationMatrixZ(t, rotation.z)), Scale4(scale.x, scale.y, scale.z))
  {
    var m := Translation4(position.x, position.y, position.z);
    var fs := Factors(t, rotation, scale);
    Product4Snoc(m, [], fs[0]);
    assert [] + [fs[0]] == fs[..1];
    Product4Snoc(m, fs[..1], fs[1]);
    assert fs[..1] + [fs[1]] == fs[..2];
    Product4Snoc(m, fs[..2], fs[2]);
    assert fs[..2] + [fs[2]] == fs[..3];
    Product4Snoc(m, fs[..3], fs[3]);
    assert fs[..3] + [fs[3]] == fs;
  }

  /** The rotation the model matrix applies: yaw, then pitch, then roll, Ry Rx Rz. */
  function RotationOf(t: Trig, rotation: Triple): (r: seq<real>)
    ensures |r| == 16
  {
    Product4(RotationMatrixY(t, rotation.y), [RotationMatrixX(t, rotation.x), RotationMatrixZ(t, rotation.z)])
  }

  /** Every factor keeps (0, 0, 0, 1) as its last column and as its bottom row. */
  lemma FactorsLinear(t: Trig, rotation: Triple, scale: Triple)
    ensures forall k :: 0 <= k < 4 ==> Factors(t, rotation, scale)[k][12..] == [0.0, 0.0, 0.0, 1.0]
    ensures forall k :: 0 <= k < 4 ==> Affine4(Factors(t, rotation, scale)[k])
  {
    var fs := Factors(t, rotation, scale);
    Linear4(t.Cos(t.Radians(rotation.y)), t.Sin(t.Radians(rotation.y)), scale.x, scale.y, scale.z);
    Linear4(t.Cos(t.Radians(rotation.x)), t.Sin(t.Radians(rotation.x)), scale.x, scale.y, scale.z);
    Linear4(t.Cos(t.Radians(rotation.z)), t.Sin(t.Radians(rotation.z)), scale.x, scale.y, scale.z);
    assert fs[0] == RotationY4(t.Cos(t.Radians(rotation.y)), t.Sin(t.Radians(rotation.y)));
    assert fs[1] == RotationX4(t.Cos(t.Radians(rotation.x)), t.Sin(t.Radians(rotation.x)));
    assert fs[2] == RotationZ4(t.Cos(t.Radians(rotation.z)), t.Sin(t.Radians(rotation.z)));
  }

  /**
   * The model matrix moves the origin to `position` and keeps the bottom row (0, 0, 0, 1):
   * entries 12 to 14 are the position, because every factor after the translation has
   * (0, 0, 0, 1) as its last column.
   */
  lemma ModelMatrixPosition(t: Trig, position: Triple, rotation: Triple, scale: Triple)
    ensures ModelMatrix(t, position, rotation, scale)[12..] == [position.x, position.y, position.z, 1.0]
    ensures Affine4(ModelMatrix(t, position, rotation, scale))
  {
    var m := Translation4(position.x, position.y, position.z);
    var fs := Factors(t, rotation, scale);
    FactorsLinear(t, rotation, scale);
    Product4LastColumn(m, fs);
    Product4Affine(m, fs);
  }

  /**
   * The local right, up and forward axes (columns 0 to 2) of the model matrix are the
   * rotated x, y and z axes, stretched by the scale along each.
   */
  lemma ModelMatrixAxes(t: Trig, position: Triple, rotation: Triple, scale: Triple)
    ensures Axis4(ModelMatrix(t, position, rotation, scale), 0) == Scaled3(Axis4(RotationOf(t, rotation), 0), scale.x)
    ensures Axis4(ModelMatrix(t, position, rotation, scale), 1) == Scaled3(Axis4(RotationOf(t, rotation), 1), scale.y)
    ensures Axis4(ModelMatrix(t, position, rotation, scale), 2) == Scaled3(Axis4(RotationOf(t, rotation), 2), scale.z)
  {
    var m := Translation4(position.x, position.y, position.z);
    var fs := Factors(t, rotation, scale);
    var rotations := fs[..3];
    var r := RotationOf(t, rotation);
    assert rotations[1..] == [fs[1], fs[2]];
    Product4Nested(m, rotations);
    Product4Nested(fs[0], [fs[1], fs[2]]);
    assert Nested4(rotations) == r;
    FactorsLinear(t, rotation, scale);
    Product4Affine(fs[0], [fs[1], fs[2]]);
    TranslationKeepsAxes4(position.x, position.y, position.z, r);
    ScaleColumns4(Product4(m, rotations), scale.x, scale.y, scale.z);
  }

  /** With cos 0 = 1 and sin 0 = 0, the defaults (no offset, no rotation, unit scale) give the identity. */
  lemma DefaultModelMatrix(t: Trig)
    requires t.ExactAtZero()
    ensures ModelMatrix(t, Zero3, Zero3, Triple(1.0, 1.0, 1.0)) == Identity4
  {
    var fs := Factors(t, Zero3, Triple(1.0, 1.0, 1.0));
    assert t.Radians(0.0) == 0.0;
    assert fs[0] == Identity4 && fs[1] == Identity4 && fs[2] == Identity4 && fs[3] == Identity4;
    assert Translation4(0.0, 0.0, 0.0) == Identity4;
    Product4Identity(Identity4, fs);
  }

  /**
   * The assignments of `updateMatrix` after the reset: the translation, then in turn its
   * product with the yaw, pitch and roll rotations and the scale, each a new `M4`.
   */
  method ComposeModelMatrix(t: Trig, position: Triple, rotation: Triple, scale: Triple) returns (m: M4)
    ensures fresh(m) && m.Valid() && m.entries == ModelMatrix(t, position, rotation, scale)
  {
    m := new M4.Of(Translation4(position.x, position.y, position.z));
    m := new M4.Of(Mult4(m.entries, RotationMatrixY(t, rotation.y)));
    m := new M4.Of(Mult4(m.entries, RotationMatrixX(t, rotation.x)));
    m := new M4.Of(Mult4(m.entries, RotationMatrixZ(t, rotation.z)));
    m := new M4.Of(Mult4(m.entries, Scale4(scale.x, scale.y, scale.z)));
    ModelMatrixChain(t, position, rotation, scale);
  }

  /** A copy of the vector given, or a new vector of the default values when none is. */
  method CloneOr(v: Option<V3>, default: Triple) returns (c: V3)
    ensures fresh(c) && c.Value() == if v.Some? then v.value.Value() else default
  {
    if v.Some? {
      c := v.value.Clone();
    } else {
      c := new V3(default.x, default.y, default.z);
    }
  }

  /** The vector given itself, or a new vector (0, 0, 0) when none is. */
  method SameOr(v: Option<V3>) returns (c: V3)
    ensures v.Some? ==> c == v.value
    ensures v.None? ==> fresh(c) && c.Value() == Zero3
  {
    if v.Some? {
      c := v.value;
    } else {
      c := new V3.Default();
    }
  }

  class ModelTransform {
    /** `Math.sin`, `Math.cos` and `Math.PI` as the object sees them. */
    const trig: Trig
    var position: V3
    var rotation: V3
    var scale: V3
    var modelMatrix: M4

    /** The three vectors are distinct objects, so setting one never changes another. */
    predicate Valid()
      reads this, modelMatrix
    {
      modelMatrix.Valid() && position != rotation && position != scale && rotation != scale
    }

    /**
     * `new ModelTransform(mesh, material, position, rotation, scale)`: position and scale are
     * cloned, rotation is kept by reference, a missing one is (0, 0, 0), (0, 0, 0) and
     * (1, 1, 1); then `updateMatrix`.
     */
    constructor (trig: Trig, position: Option<V3>, rotation: Option<V3>, scale: Option<V3>)
      ensures Valid() && this.trig == trig && fresh(this.position) && fresh(this.scale) && fresh(modelMatrix)
      ensures this.position.Value() == if position.Some? then position.value.Value() else Zero3
      ensures this.scale.Value() == if scale.Some? then scale.value.Value() else Triple(1.0, 1.0, 1.0)
      ensures rotation.Some? ==> this.rotation == rotation.value
      ensures rotation.None? ==> fresh(this.rotation) && this.rotation.Value() == Zero3
      ensures modelMatrix.entries == ModelMatrix(trig, this.position.Value(), this.rotation.Value(), this.scale.Value())
    {
      var p := CloneOr(position, Zero3);
      var s := CloneOr(scale, Triple(1.0, 1.0, 1.0));
      var r := SameOr(rotation);
      var identity := new M4();
      this.trig := trig;
      this.position, this.rotation, this.scale := p, r, s;
      modelMatrix := identity;
      new;
      assert this.position.Value() == if position.Some? then position.value.Value() else Zero3;
      assert this.scale.Value() == if scale.Some? then scale.value.Value() else Triple(1.0, 1.0, 1.0);
      assert rotation.None? ==> this.rotation.Value() == Zero3;
      UpdateMatrix();
    }

    /**
     * `updateMatrix`: the current matrix object is reset to the identity, then `modelMatrix`
     * is replaced by the matrix composed from the vectors, which are read and not changed.
     */
    method UpdateMatrix()
      requires Valid()
      modifies this, modelMatrix
      ensures Valid() && fresh(modelMatrix) && modelMatrix.entries == ModelMatrix(trig, position.Value(), rotation.Value(), scale.Value())
      ensures position == old(position) && rotation == old(rotation) && scale == old(scale)
      ensures unchanged(position, rotation, scale)
    {
      var previous := modelMatrix.Reset();
      modelMatrix := ComposeModelMatrix(trig, position.Value(), rotation.Value(), scale.Value());
    }

    /** `update`: `updateMatrix`, then the object itself. */
    method Update() returns (r: ModelTransform)
      requires Valid()
      modifies this, modelMatrix
      ensures r == this && Valid() && fresh(modelMatrix) && modelMatrix.entries == ModelMatrix(trig, position.Value(), rotation.Value(), scale.Value())
      ensures position == old(position) && rotation == old(rotation) && scale == old(scale)
    {
      UpdateMatrix();
      return this;
    }

    /** `localRight`: a new vector of entries 0 to 2, the image of the x axis. */
    method LocalRight() returns (v: V3)
      requires Valid()
      ensures fresh(v) && v.Value() == Axis4(modelMatrix.entries, 0)
    {
      v := new V3(modelMatrix.entries[0], modelMatrix.entries[1], modelMatrix.entries[2]);
    }

    /** `localUp`: a new vector of entries 4 to 6, the image of the y axis. */
    method LocalUp() returns (v: V3)
      requires Valid()
      ensures fresh(v) && v.Value() == Axis4(modelMatrix.entries, 1)
    {
      v := new V3(modelMatrix.entries[4], modelMatrix.entries[5], modelMatrix.entries[6]);
    }

    /** `localForward`: a new vector of entries 8 to 10, the image of the z axis. */
    method LocalForward() returns (v: V3)
      requires Valid()
      ensures fresh(v) && v.Value() == Axis4(modelMatrix.entries, 2)
    {
      v := new V3(modelMatrix.entries[8], modelMatrix.entries[9], modelMatrix.entries[10]);
    }

    /**
     * `reset`: position and rotation set to (0, 0, 0), scale to (1, 1, 1) in place, and the
     * matrix object reset to the identity, which is the matrix `updateMatrix` would compute
     * from those values when cos 0 = 1 and sin 0 = 0.  The rotation object may be shared
     * with the caller, who sees it change.
     */
    method Reset() returns (r: ModelTransform)
      requires Valid()
      modifies position, scale, rotation, modelMatrix
      ensures r == this && Valid()
      ensures position.Value() == Zero3 && scale.Value() == Triple(1.0, 1.0, 1.0) && rotation.Value() == Zero3
      ensures modelMatrix.entries == Identity4
      ensures trig.ExactAtZero() ==> modelMatrix.entries == ModelMatrix(trig, position.Value(), rotation.Value(), scale.Value())
    {
      var p := position.Set(0.0, 0.0, 0.0);
      var s := scale.Set(1.0, 1.0, 1.0);
      var o := rotation.Set(0.0, 0.0, 0.0);
      var m := modelMatrix.Reset();
      if trig.ExactAtZero() {
        DefaultModelMatrix(trig);
      }
      return this;
    }
  }
}
