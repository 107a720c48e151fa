/**
 * `ModelTransform` of lab7/lab07-exercise01-3d/modeltransform.js.  It has the fields,
 * constructor, getters and `reset` of the lab8 transform; `updateMatrix` builds the same
 * factors but multiplies them from the right, as one nested expression
 * `T (Ry (Rx (Rz S)))`, and reads the vectors by index (`rotation[0]` is `rotation.x`).
 */
module BasicTransform {
  import opened Wrappers
  import opened Trigonometry
  import opened FixedVectors
  import opened FixedMatrices
  import LightingTransform

  /** The matrix `updateMatrix` leaves in `modelMatrix`: the translation times the nested product of the factors. */
  function ModelMatrix(t: Trig, position: Triple, rotation: Triple, scale: Triple): (r: seq<real>)
    ensures |r| == 16
  {
    Mult4(Translation4(position.x, position.y, position.z), Nested4(LightingTransform.Factors(t, rotation, scale)))
  }

  /** The nested expression written out, `T (Ry (Rx (Rz S)))`. */
  lemma ModelMatrixNested(t: Trig, position: Triple, rotation: Triple, scale: Triple)
    ensures ModelMatrix(t, position, rotation, scale)
         == Mult4(Translation4(position.x, position.y, position.z),
                  Mult4(RotationMatrixY(t, rotation.y), Mult4(RotationMatrixX(t, rotation.x),
                        Mult4(RotationMatrixZ(t, rotation.z), Scale4(scale.x, scale.y, scale.z)))))
  {
    var fs := LightingTransform.Factors(t, rotation, scale);
    assert fs[1..][1..][1..] == [fs[3]];
    assert Nested4(fs[1..][1..]) == Mult4(fs[2], fs[3]);
    assert Nested4(fs[1..]) == Mult4(fs[1], Mult4(fs[2], fs[3]));
  }

  /**
   * Multiplying from the right gives the same matrix as the lab8 transform, which multiplies
   * from the left: matrix products associate, so the two transforms place a model alike.
   */
  lemma MatchesLighting(t: Trig, position: Triple, rotation: Triple, scale: Triple)
    ensures ModelMatrix(t, position, rotation, scale) == LightingTransform.ModelMatrix(t, position, rotation, scale)
  {
    Product4Nested(Translation4(position.x, position.y, position.z), LightingTransform.Factors(t, rotation, scale));
  }

  /** The model matrix moves the origin to `position` and keeps the bottom row (0, 0, 0, 1). */
  lemma ModelMatrixPosition(t: Trig, position: Triple, rotation: Triple, scale: Triple)
    ensures ModelMatrix(t, position, rotation, scale)[12..] == [position.x, position.y, position.z, 1.0]
    ensures Affine4(ModelMatrix(t, position, rotation, scale))
  {
    MatchesLighting(t, position, rotation, scale);
    LightingTransform.ModelMatrixPosition(t, position, rotation, scale);
  }

  /** With cos 0 = 1 and sin 0 = 0, the defaults give the identity. */
  lemma DefaultModelMatrix(t: Trig)
    requires t.ExactAtZero()
    ensures ModelMatrix(t, Zero3, Zero3, Triple(1.0, 1.0, 1.0)) == Identity4
  {
    MatchesLighting(t, Zero3, Zero3, Triple(1.0, 1.0, 1.0));
    LightingTransform.DefaultModelMatrix(t);
  }

  /** The nested expression of `updateMatrix`, evaluated innermost product first, into a new `M4`. */
  method ComposeModelMatrix(t: Trig, position: Triple, rotation: Triple, scale: Triple) returns (m: M4)
    ensures fresh(m) && m.Valid() && m.entries == ModelMatrix(t, position, rotation, scale)
  {
    var rotX := RotationMatrixX(t, rotation.x);
    var rotY := RotationMatrixY(t, rotation.y);
    var rotZ := RotationMatrixZ(t, rotation.z);
    var scaleM := Scale4(scale.x, scale.y, scale.z);
    var transM := Translation4(position.x, position.y, position.z);
    m := new M4.Of(Mult4(transM, Mult4(rotY, Mult4(rotX, Mult4(rotZ, scaleM)))));
    ModelMatrixNested(t, position, rotation, scale);
  }

  class ModelTransform {
    /** `Math.sin`, `Math.cos` and `Math.PI` as the object sees them. */
    const trig: Trig
    var position: V3
    var rotation: V3
    var scale: V3
    var modelMatrix: M4

    /** The three vectors are distinct objects, so setting one never changes another. */
    predicate Valid()
      reads this, modelMatrix
    {
      modelMatrix.Valid() && position != rotation && position != scale && rotation != scale
    }

    /**
     * `new ModelTransform(mesh, material, position, rotation, scale)`: position and scale are
     * cloned, rotation is kept by reference, a missing one is (0, 0, 0), (0, 0, 0) and
     * (1, 1, 1); then `updateMatrix`.
     */
    constructor (trig: Trig, position: Option<V3>, rotation: Option<V3>, scale: Option<V3>)
      ensures Valid() && this.trig == trig && fresh(this.position) && fresh(this.scale) && fresh(modelMatrix)
      ensures this.position.Value() == if position.Some? then position.value.Value() else Zero3
      ensures this.scale.Value() == if scale.Some? then scale.value.Value() else Triple(1.0, 1.0, 1.0)
      ensures rotation.Some? ==> this.rotation == rotation.value
      ensures rotation.None? ==> fresh(this.rotation) && this.rotation.Value() == Zero3
      ensures modelMatrix.entries == ModelMatrix(trig, this.position.Value(), this.rotation.Value(), this.scale.Value())
    {
      var p := LightingTransform.CloneOr(position, Zero3);
      var s := LightingTransform.CloneOr(scale, Triple(1.0, 1.0, 1.0));
      var r := LightingTransform.SameOr(rotation);
      var identity := new M4();
      this.trig := trig;
      this.position, this.rotation, this.scale := p, r, s;
      modelMatrix := identity;
      new;
      assert this.position.Value() == if position.Some? then position.value.Value() else Zero3;
      assert this.scale.Value() == if scale.Some? then scale.value.Value() else Triple(1.0, 1.0, 1.0);
      assert rotation.None? ==> this.rotation.Value() == Zero3;
      UpdateMatrix();
    }

    /**
     * `updateMatrix`: the current matrix object is reset to the identity, then `modelMatrix`
     * is replaced by the nested product, and the vectors are read and not changed.
     */
    method UpdateMatrix()
      requires Valid()
      modifies this, modelMatrix
      ensures Valid() && fresh(modelMatrix) && modelMatrix.entries == ModelMatrix(trig, position.Value(), rotation.Value(), scale.Value())
      ensures position == old(position) && rotation == old(rotation) && scale == old(scale)
      ensures unchanged(position, rotation, scale)
    {
      var previous := modelMatrix.Reset();
      modelMatrix := ComposeModelMatrix(trig, position.Value(), rotation.Value(), scale.Value());
    }

    /** `update`: `updateMatrix`, then the object itself. */
    method Update() returns (r: ModelTransform)
      requires Valid()
      modifies this, modelMatrix
      ensures r == this && Valid() && fresh(modelMatrix) && modelMatrix.entries == ModelMatrix(trig, position.Value(), rotation.Value(), scale.Value())
      ensures position == old(position) && rotation == old(rotation) && scale == old(scale)
    {
      UpdateMatrix();
      return this;
    }

    /** `localRight`: a new vector of entries 0 to 2, the image of the x axis. */
    method LocalRight() returns (v: V3)
      requires Valid()
      ensures fresh(v) && v.Value() == Axis4(modelMatrix.entries, 0)
    {
      v := new V3(modelMatrix.entries[0], modelMatrix.entries[1], modelMatrix.entries[2]);
    }

    /** `localUp`: a new vector of entries 4 to 6, the image of the y axis. */
    method LocalUp() returns (v: V3)
      requires Valid()
      ensures fresh(v) && v.Value() == Axis4(modelMatrix.entries, 1)
    {
      v := new V3(modelMatrix.entries[4], modelMatrix.entries[5], modelMatrix.entries[6]);
    }

    /** `localForward`: a new vector of entries 8 to 10, the image of the z axis. */
    method LocalForward() returns (v: V3)
      requires Valid()
      ensures fresh(v) && v.Value() == Axis4(modelMatrix.entries, 2)
    {
      v := new V3(modelMatrix.entries[8], modelMatrix.entries[9], modelMatrix.entries[10]);
    }

    /**
     * `reset`: position and rotation set to (0, 0, 0), scale to (1, 1, 1) in place, and the
     * matrix object reset to the identity, the matrix of those values when cos 0 = 1 and
     * sin 0 = 0.
     */
    method Reset() returns (r: ModelTransform)
      requires Valid()
      modifies position, scale, rotation, modelMatrix
      ensures r == this && Valid()
      ensures position.Value() == Zero3 && scale.Value() == Triple(1.0, 1.0, 1.0) && rotation.Value() == Zero3
      ensures modelMatrix.entries == Identity4
      ensures trig.ExactAtZero() ==> modelMatrix.entries == ModelMatrix(trig, position.Value(), rotation.Value(), scale.Value())
    {
      var p := position.Set(0.0, 0.0, 0.0);
      var s := scale.Set(1.0, 1.0, 1.0);
      var o := rotation.Set(0.0, 0.0, 0.0);
      var m := modelMatrix.Reset();
      if trig.ExactAtZero() {
        DefaultModelMatrix(trig);
      }
      return this;
    }
  }
}
