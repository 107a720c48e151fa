/**
 * `ModelTransform` of lab6/lab06-exercise01-engine2D/modeltransform.js, the 2D transform:
 * a `V2` position, a rotation angle in degrees, a `V2` scale, and the 3 x 3 model matrix
 * `updateMatrix` builds with the `M3` static methods of lab6/common/math2d.js (the same
 * code as the first part of lab8/common/math.js).
 */
module Engine2DTransform {
  import opened Wrappers
  import opened Sums
  import opened Trigonometry
  import opened FixedVectors
  import opened FixedMatrices

  /** The matrix `updateMatrix` leaves in `modelMatrix`: (T R) S. */
  function ModelMatrix(t: Trig, position: Pair, rotation: real, scale: Pair): (r: seq<real>)
    ensures |r| == 9
  {
    Mult3(Mult3(Translation3(position.x, position.y), RotationMatrix(t, rotation)), Scale3(scale.x, scale.y))
  }

  /** The model matrix moves the origin to `position` and keeps (0, 0, 1) as its bottom row. */
  lemma ModelMatrixPosition(t: Trig, position: Pair, rotation: real, scale: Pair)
    ensures ModelMatrix(t, position, rotation, scale)[6..] == [position.x, position.y, 1.0]
    ensures MultV2by3(ModelMatrix(t, position, rotation, scale), Zero2) == position
  {
    var c, s := t.Cos(t.Radians(rotation)), t.Sin(t.Radians(rotation));
    var tr := Mult3(Translation3(position.x, position.y), Rotation3(c, s));
    Affine3(c, s, scale.x, scale.y);
    Mult3LastColumn(Translation3(position.x, position.y), Rotation3(c, s));
    Mult3LastColumn(tr, Scale3(scale.x, scale.y));
  }

  /**
   * The local right and up axes (columns 0 and 1) are the x and y axes rotated by the
   * angle and stretched by the scale.
   */
  lemma ModelMatrixAxes(t: Trig, position: Pair, rotation: real, scale: Pair)
    ensures Pair(ModelMatrix(t, position, rotation, scale)[0], ModelMatrix(t, position, rotation, scale)[1])
         == Scaled2(Pair(t.Cos(t.Radians(rotation)), t.Sin(t.Radians(rotation))), scale.x)
    ensures Pair(ModelMatrix(t, position, rotation, scale)[3], ModelMatrix(t, position, rotation, scale)[4])
         == Scaled2(Pair(-t.Sin(t.Radians(rotation)), t.Cos(t.Radians(rotation))), scale.y)
  {
    var c, s := t.Cos(t.Radians(rotation)), t.Sin(t.Radians(rotation));
    var tr := Mult3(Translation3(position.x, position.y), Rotation3(c, s));
    assert tr[..6] == [c, s, 0.0, -s, c, 0.0];
  }

  /** With cos 0 = 1 and sin 0 = 0, the defaults (no offset, no rotation, unit scale) give the identity. */
  lemma DefaultModelMatrix(t: Trig)
    requires t.ExactAtZero()
    ensures ModelMatrix(t, Zero2, 0.0, Pair(1.0, 1.0)) == Identity3
  {
    assert t.Radians(0.0) == 0.0;
    assert RotationMatrix(t, 0.0) == Identity3;
    Mult3Identity(Identity3);
  }

  /** The statements of `updateMatrix` after the reset: T, R and S, then the two products, each a new `M3`. */
  method ComposeModelMatrix(t: Trig, position: Pair, rotation: real, scale: Pair) returns (m: M3)
    ensures fresh(m) && m.Valid() && m.entries == ModelMatrix(t, position, rotation, scale)
  {
    var tMatrix := Translation3(position.x, position.y);
    var rMatrix := RotationMatrix(t, rotation);
    var sMatrix := Scale3(scale.x, scale.y);
    var rtMatrix := new M3.Of(Mult3(tMatrix, rMatrix));
    m := new M3.Of(Mult3(rtMatrix.entries, sMatrix));
  }

  /** A copy of the vector given, or a new vector of the default values when none is. */
  method CloneOr(v: Option<V2>, default: Pair) returns (c: V2)
    ensures fresh(c) && c.Value() == if v.Some? then v.value.Value() else default
  {
    if v.Some? {
      c := v.value.Clone();
    } else {
      c := new V2(default.x, default.y);
    }
  }

  class ModelTransform {
    /** `Math.sin`, `Math.cos` and `Math.PI` as the object sees them. */
    const trig: Trig
    var position: V2
    /** The angle in degrees, a number held by value. */
    var rotation: real
    var scale: V2
    var modelMatrix: M3

    /** Position and scale are distinct objects, so setting one never changes the other. */
    predicate Valid()
      reads this, modelMatrix
    {
      modelMatrix.Valid() && position != scale
    }

    /**
     * `new ModelTransform(mesh, material, position, rotation, scale)`: position and scale are
     * cloned, a missing position is (0, 0), a missing (or zero) rotation 0, a missing scale
     * (1, 1); then `updateMatrix`.
     */
    constructor (trig: Trig, position: Option<V2>, rotation: Option<real>, scale: Option<V2>)
      ensures Valid() && this.trig == trig && fresh(this.position) && fresh(this.scale) && fresh(modelMatrix)
      ensures this.position.Value() == if position.Some? then position.value.Value() else Zero2
      ensures this.rotation == if rotation.Some? then rotation.value else 0.0
      ensures this.scale.Value() == if scale.Some? then scale.value.Value() else Pair(1.0, 1.0)
      ensures modelMatrix.entries == ModelMatrix(trig, this.position.Value(), this.rotation, this.scale.Value())
    {
      var p := CloneOr(position, Zero2);
      var s := CloneOr(scale, Pair(1.0, 1.0));
      var zeros := new M3();
      this.trig := trig;
      this.position, this.scale := p, s;
      this.rotation := if rotation.Some? then rotation.value else 0.0;
      modelMatrix := zeros;
      new;
      UpdateMatrix();
    }

    /**
     * `updateMatrix`: the current matrix object is reset to the identity, then `modelMatrix`
     * is replaced by (T R) S composed from position, rotation and scale, which are not changed.
     */
    method UpdateMatrix()
      requires Valid()
      modifies this, modelMatrix
      ensures Valid() && fresh(modelMatrix) && modelMatrix.entries == ModelMatrix(trig, position.Value(), rotation, scale.Value())
      ensures position == old(position) && rotation == old(rotation) && scale == old(scale)
      ensures unchanged(position, scale)
    {
      var previous := modelMatrix.Reset();
      modelMatrix := ComposeModelMatrix(trig, position.Value(), rotation, scale.Value());
    }

    /** `update`: `updateMatrix`; unlike the 3D transforms it returns nothing. */
    method Update()
      requires Valid()
      modifies this, modelMatrix
      ensures Valid() && fresh(modelMatrix) && modelMatrix.entries == ModelMatrix(trig, position.Value(), rotation, scale.Value())
      ensures position == old(position) && rotation == old(rotation) && scale == old(scale)
    {
      UpdateMatrix();
    }

    /** `localRight`: a new vector of entries 0 and 1, the image of the x axis. */
    method LocalRight() returns (v: V2)
      requires Valid()
      ensures fresh(v) && v.Value() == Pair(modelMatrix.entries[0], modelMatrix.entries[1])
    {
      v := new V2(modelMatrix.entries[0], modelMatrix.entries[1]);
    }

    /** `localUp`: a new vector of entries 3 and 4, the image of the y axis. */
    method LocalUp() returns (v: V2)
      requires Valid()
      ensures fresh(v) && v.Value() == Pair(modelMatrix.entries[3], modelMatrix.entries[4])
    {
      v := new V2(modelMatrix.entries[3], modelMatrix.entries[4]);
    }

    /**
     * `reset`: position (0, 0) and scale (1, 1) set in place, rotation 0, and the matrix
     * object reset to the identity, the matrix of those values when cos 0 = 1 and sin 0 = 0.
     */
    method Reset() returns (r: ModelTransform)
      requires Valid()
      modifies this, position, scale, modelMatrix
      ensures r == this && Valid() && position == old(position) && scale == old(scale) && modelMatrix == old(modelMatrix)
      ensures position.Value() == Zero2 && scale.Value() == Pair(1.0, 1.0) && rotation == 0.0
      ensures modelMatrix.entries == Identity3
      ensures trig.ExactAtZero() ==> modelMatrix.entries == ModelMatrix(trig, position.Value(), rotation, scale.Value())
    {
      var p := position.Set(0.0, 0.0);
      var s := scale.Set(1.0, 1.0);
      rotation := 0.0;
      var m := modelMatrix.Reset();
      if trig.ExactAtZero() {
        DefaultModelMatrix(trig);
      }
      return this;
    }
  }
}
