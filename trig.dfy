/**
 * The transcendental part of JavaScript's `Math` that the meshes and the transforms use:
 * `Math.PI`, `Math.cos` and `Math.sin` are not computed here but passed in as a value of
 * type `Trig`, so every statement about them holds whatever functions the caller supplies.
 */
module Trigonometry {

  /** `Math.PI`, `Math.cos` and `Math.sin`. */
  datatype Trig = Trig(pi: real, cos: real -> real, sin: real -> real)
  {
    function Cos(a: real): real
    {
      cos(a)
    }

    function Sin(a: real): real
    {
      sin(a)
    }

    /** An angle in degrees in radians: `angle * Math.deg2rad`, with `Math.deg2rad = Math.PI / 180`. */
    function Radians(degrees: real): real
    {
      degrees * (pi / 180.0)
    }

    /** cos 0 = 1 and sin 0 = 0, which is all the statements about default transforms need. */
    predicate ExactAtZero()
    {
      Cos(0.0) == 1.0 && Sin(0.0) == 0.0
    }
  }
}
