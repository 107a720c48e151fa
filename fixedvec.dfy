/**
 * The fixed-size vectors of lab8/common/math.js, of which lab6/common/math2d.js is a copy:
 * `V2` and `V3` are arrays of two or three numbers whose methods change the components
 * in place and return the vector itself, so that calls chain.  `Pair` and `Triple` are
 * their values, and the arithmetic is stated on those.
 */
module FixedVectors {

  datatype Pair = Pair(x: real, y: real)

  datatype Triple = Triple(x: real, y: real, z: real)

  /** The direction constants of `V2` and `V3`. */
  const Zero2 := Pair(0.0, 0.0)
  const Right2 := Pair(1.0, 0.0)
  const Left2 := Pair(-1.0, 0.0)
  const Up2 := Pair(0.0, 1.0)
  const Down2 := Pair(0.0, -1.0)

  const Zero3 := Triple(0.0, 0.0, 0.0)
  const Right3 := Triple(1.0, 0.0, 0.0)
  const Left3 := Triple(-1.0, 0.0, 0.0)
  const Up3 := Triple(0.0, 1.0, 0.0)
  const Down3 := Triple(0.0, -1.0, 0.0)
  const Forward3 := Triple(0.0, 0.0, 1.0)
  const Back3 := Triple(0.0, 0.0, -1.0)

  function Plus2(u: Pair, v: Pair): Pair
  {
    Pair(u.x + v.x, u.y + v.y)
  }

  function Minus2(u: Pair, v: Pair): Pair
  {
    Pair(u.x - v.x, u.y - v.y)
  }

  function Scaled2(u: Pair, s: real): Pair
  {
    Pair(u.x * s, u.y * s)
  }

  function Negated2(u: Pair): Pair
  {
    Pair(-u.x, -u.y)
  }

  function Dot2(u: Pair, v: Pair): real
  {
    u.x * v.x + u.y * v.y
  }

  function Plus3(u: Triple, v: Triple): Triple
  {
    Triple(u.x + v.x, u.y + v.y, u.z + v.z)
  }

  function Minus3(u: Triple, v: Triple): Triple
  {
    Triple(u.x - v.x, u.y - v.y, u.z - v.z)
  }

  function Scaled3(u: Triple, s: real): Triple
  {
    Triple(u.x * s, u.y * s, u.z * s)
  }

  function Negated3(u: Triple): Triple
  {
    Triple(-u.x, -u.y, -u.z)
  }

  function Dot3(u: Triple, v: Triple): real
  {
    u.x * v.x + u.y * v.y + u.z * v.z
  }

  /** `V3.cross`: this x v, component by component. */
  function Cross3(u: Triple, v: Triple): Triple
  {
    Triple(u.y * v.z - u.z * v.y, u.z * v.x - u.x * v.z, u.x * v.y - u.y * v.x)
  }

  /** The basis is right-handed: RIGHT x UP is FORWARD, and so on cyclically. */
  lemma CrossOfBasis()
    ensures Cross3(Right3, Up3) == Forward3
    ensures Cross3(Up3, Forward3) == Right3
    ensures Cross3(Forward3, Right3) == Up3
  {
    assert Cross3(Right3, Up3) == Forward3 by { }
    assert Cross3(Up3, Forward3) == Right3 by { }
  }

  /** Exchanging the factors of a cross product negates it; a vector crossed with itself is 0. */
  lemma CrossAnticommutes(u: Triple, v: Triple)
    ensures Cross3(u, v) == Negated3(Cross3(v, u))
    ensures Cross3(u, u) == Zero3
  {
  }

  /** The cross product is orthogonal to both of its factors. */
  lemma CrossOrthogonal(u: Triple, v: Triple)
    ensures Dot3(Cross3(u, v), u) == 0.0
    ensures Dot3(Cross3(u, v), v) == 0.0
  {
  }

  /** The opposite direction constants are negations of each other. */
  lemma Opposites()
    ensures Left2 == Negated2(Right2) && Down2 == Negated2(Up2)
    ensures Left3 == Negated3(Right3) && Down3 == Negated3(Up3) && Back3 == Negated3(Forward3)
  {
  }

  /** `invert` undoes itself, and subtracting what was added restores a vector. */
  lemma RoundTrips2(u: Pair, v: Pair)
    ensures Negated2(Negated2(u)) == u
    ensures Minus2(Plus2(u, v), v) == u && Plus2(Minus2(u, v), v) == u
    ensures Negated2(u) == Scaled2(u, -1.0)
  {
  }

  lemma RoundTrips3(u: Triple, v: Triple)
    ensures Negated3(Negated3(u)) == u
    ensures Minus3(Plus3(u, v), v) == u && Plus3(Minus3(u, v), v) == u
    ensures Negated3(u) == Scaled3(u, -1.0)
  {
  }

  /** `dot` does not depend on the order of its operands. */
  lemma DotSymmetric(u: Triple, v: Triple, p: Pair, q: Pair)
    ensures Dot3(u, v) == Dot3(v, u) && Dot2(p, q) == Dot2(q, p)
  {
  }

  /**
   * `V2`.  The constructor takes two numbers, or an array whose first two entries it
   * copies; `new V2()` (arguments that are not numbers) gives the zero vector.
   */
  class V2 {
    var x: real
    var y: real

    function Value(): Pair
      reads this
    {
      Pair(x, y)
    }

    constructor (x: real, y: real)
      ensures Value() == Pair(x, y)
    {
      this.x, this.y := x, y;
    }

    /** `new V2()`: the arguments are not numbers, so both components are 0. */
    constructor Default()
      ensures Value() == Zero2
    {
      x, y := 0.0, 0.0;
    }

    /** `new V2([x, y, ...])`: the first two entries of the array. */
    constructor FromArray(a: seq<real>)
      requires |a| >= 2
      ensures Value() == Pair(a[0], a[1])
    {
      x, y := a[0], a[1];
    }

    method Set(x: real, y: real) returns (r: V2)
      modifies this
      ensures r == this && Value() == Pair(x, y)
    {
      this.x := x;
      this.y := y;
      return this;
    }

    method MultiplyScalar(s: real) returns (r: V2)
      modifies this
      ensures r == this && Value() == Scaled2(old(Value()), s)
    {
      x := x * s;
      y := y * s;
      return this;
    }

    /** `dot(v)`: symmetric, and never negative for the vector with itself. */
    function Dot(v: V2): (r: real)
      reads this, v
      ensures r == Dot2(v.Value(), Value())
      ensures v == this ==> r >= 0.0
    {
      Dot2(Value(), v.Value())
    }

    /** `addV(v)`: adds v component by component; v may be this vector itself. */
    method AddV(v: V2) returns (r: V2)
      modifies this
      ensures r == this && Value() == Plus2(old(Value()), old(v.Value()))
    {
      x := x + v.x;
      y := y + v.y;
      return this;
    }

    method Add(x: real, y: real) returns (r: V2)
      modifies this
      ensures r == this && Value() == Plus2(old(Value()), Pair(x, y))
    {
      this.x := this.x + x;
      this.y := this.y + y;
      return this;
    }

    method SubtractV(v: V2) returns (r: V2)
      modifies this
      ensures r == this && Value() == Minus2(old(Value()), old(v.Value()))
    {
      x := x - v.x;
      y := y - v.y;
      return this;
    }

    method Subtract(x: real, y: real) returns (r: V2)
      modifies this
      ensures r == this && Value() == Minus2(old(Value()), Pair(x, y))
    {
      this.x := this.x - x;
      this.y := this.y - y;
      return this;
    }

    method Invert() returns (r: V2)
      modifies this
      ensures r == this && Value() == Negated2(old(Value()))
    {
      x := -x;
      y := -y;
      return this;
    }

    /** `equals`: both components are identical, so the two vectors hold the same value. */
    function Equals(v: V2): (r: bool)
      reads this, v
      ensures r <==> Value() == v.Value()
    {
      x == v.x && y == v.y
    }

    method Clone() returns (c: V2)
      ensures fresh(c) && c.Value() == Value()
    {
      c := new V2(x, y);
    }

    method ToV3() returns (c: V3)
      ensures fresh(c) && c.Value() == Triple(x, y, 0.0)
    {
      c := new V3(x, y, 0.0);
    }
  }

  /**
   * `V3`.  `addV`, `add`, `subtractV` and `subtract` change z only when the amount given
   * for it is truthy, that is, neither 0 nor missing; adding or subtracting 0 would not
   * change it either.
   */
  class V3 {
    var x: real
    var y: real
    var z: real

    function Value(): Triple
      reads this
    {
      Triple(x, y, z)
    }

    constructor (x: real, y: real, z: real)
      ensures Value() == Triple(x, y, z)
    {
      this.x, this.y, this.z := x, y, z;
    }

    /** `new V3()`: the arguments are not numbers, so every component is 0. */
    constructor Default()
      ensures Value() == Zero3
    {
      x, y, z := 0.0, 0.0, 0.0;
    }

    /** `new V3([x, y, z, ...])`: the first three entries of the array. */
    constructor FromArray(a: seq<real>)
      requires |a| >= 3
      ensures Value() == Triple(a[0], a[1], a[2])
    {
      x, y, z := a[0], a[1], a[2];
    }

    method Set(x: real, y: real, z: real) returns (r: V3)
      modifies this
      ensures r == this && Value() == Triple(x, y, z)
    {
      this.x := x;
      this.y := y;
      this.z := z;
      return this;
    }

    method MultiplyScalar(s: real) returns (r: V3)
      modifies this
      ensures r == this && Value() == Scaled3(old(Value()), s)
    {
      x := x * s;
      y := y * s;
      z := z * s;
      return this;
    }

    /** `dot(v)`: symmetric, and never negative for the vector with itself. */
    function Dot(v: V3): (r: real)
      reads this, v
      ensures r == Dot3(v.Value(), Value())
      ensures v == this ==> r >= 0.0
    {
      Dot3(Value(), v.Value())
    }

    /** `cross(v)`: a fresh vector holding this x v. */
    method Cross(v: V3) returns (c: V3)
      ensures fresh(c) && c.Value() == Cross3(Value(), v.Value())
    {
      c := new V3(y * v.z - z * v.y, z * v.x - x * v.z, x * v.y - y * v.x);
    }

    /** `addV(v)`: adds v component by component; v may be this vector itself. */
    method AddV(v: V3) returns (r: V3)
      modifies this
      ensures r == this && Value() == Plus3(old(Value()), old(v.Value()))
    {
      x := x + v.x;
      y := y + v.y;
      if v.z != 0.0 {
        z := z + v.z;
      }
      return this;
    }

    method Add(x: real, y: real, z: real) returns (r: V3)
      modifies this
      ensures r == this && Value() == Plus3(old(Value()), Triple(x, y, z))
    {
      this.x := this.x + x;
      this.y := this.y + y;
      if z != 0.0 {
        this.z := this.z + z;
      }
      return this;
    }

    method SubtractV(v: V3) returns (r: V3)
      modifies this
      ensures r == this && Value() == Minus3(old(Value()), old(v.Value()))
    {
      x := x - v.x;
      y := y - v.y;
      if v.z != 0.0 {
        z := z - v.z;
      }
      return this;
    }

    method Subtract(x: real, y: real, z: real) returns (r: V3)
      modifies this
      ensures r == this && Value() == Minus3(old(Value()), Triple(x, y, z))
    {
      this.x := this.x - x;
      this.y := this.y - y;
      if z != 0.0 {
        this.z := this.z - z;
      }
      return this;
    }

    method Invert() returns (r: V3)
      modifies this
      ensures r == this && Value() == Negated3(old(Value()))
    {
      x := -x;
      y := -y;
      z := -z;
      return this;
    }

    /** `equals`: all three components are identical, so the two vectors hold the same value. */
    function Equals(v: V3): (r: bool)
      reads this, v
      ensures r <==> Value() == v.Value()
    {
      x == v.x && y == v.y && z == v.z
    }

    method Clone() returns (c: V3)
      ensures fresh(c) && c.Value() == Value()
    {
      c := new V3(x, y, z);
    }

    method ToV2() returns (c: V2)
      ensures fresh(c) && c.Value() == Pair(x, y)
    {
      c := new V2(x, y);
    }
  }

  /**
   * `addV(v)` followed by `subtractV(v)` leaves a vector as it was when v is another
   * vector.
   */
  method AddThenSubtract(u: V3, v: V3) returns (before: Triple)
    requires u != v
    modifies u
    ensures before == old(u.Value()) && u.Value() == before
  {
    before := u.Value();
    var _ := u.AddV(v);
    var _ := u.SubtractV(v);
    RoundTrips3(before, v.Value());
  }

  /** With v the vector itself, `addV` doubles it and `subtractV` then clears it. */
  method AddSelfThenSubtractSelf(u: V3)
    modifies u
    ensures u.Value() == Zero3
  {
    var _ := u.AddV(u);
    assert u.Value() == Scaled3(old(u.Value()), 2.0);
    var _ := u.SubtractV(u);
  }
}
