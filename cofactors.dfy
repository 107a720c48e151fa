/**
 * Polynomial identities behind the closed-form inverses of lab8/common/math.js.  A matrix
 * times the matrix `invert` builds before dividing by the determinant (the transposed
 * matrix of cofactors) is the determinant times the identity; `M3.invert` and `M4.invert`
 * are correct because of these identities.
 *
 * Each identity appears at up to three levels, because the solver handles them well only
 * one step at a time: over plain products of scalar entries (`*Poly`), with the
 * intermediate minors substituted (`Minors4Expand*`), and over `Times`, the form in which
 * the matrix functions are written (`Adjugate3Column*`, `Adjugate4Column*`).
 */
module Cofactors {
  import opened Sums

  /** The 2 x 2 determinant `det2` of `M3.invert`, of the minor listed as [p, q, r, s]. */
  function Det2(p: real, q: real, r: real, s: real): real
  {
    Times(p, s) - Times(r, q)
  }

  /** The expansion along the first row of the 3 x 3 matrix with rows (a b c), (d e f), (g h i). */
  function Expansion3(a: real, b: real, c: real, d: real, e: real, f: real, g: real, h: real, i: real): real
  {
    a * (e * i - f * h) - b * (d * i - f * g) + c * (d * h - e * g)
  }

  /**
   * The determinant `M4.invert` computes from its twelve 2 x 2 minors, over plain products
   * of the entries mk (column-major).
   */
  function Minors4(m0: real, m1: real, m2: real, m3: real, m4: real, m5: real, m6: real, m7: real,
                   m8: real, m9: real, m10: real, m11: real, m12: real, m13: real, m14: real, m15: real): real
  {
    (m0 * m5 - m1 * m4) * (m10 * m15 - m11 * m14) - (m0 * m6 - m2 * m4) * (m9 * m15 - m11 * m13)
    + (m0 * m7 - m3 * m4) * (m9 * m14 - m10 * m13) + (m1 * m6 - m2 * m5) * (m8 * m15 - m11 * m12)
    - (m1 * m7 - m3 * m5) * (m8 * m14 - m10 * m12) + (m2 * m7 - m3 * m6) * (m8 * m13 - m9 * m12)
  }

  /** That determinant is the expansion along the first column. */
  lemma Laplace4Poly(m0: real, m1: real, m2: real, m3: real, m4: real, m5: real, m6: real, m7: real,
                     m8: real, m9: real, m10: real, m11: real, m12: real, m13: real, m14: real, m15: real)
    ensures Minors4(m0, m1, m2, m3, m4, m5, m6, m7, m8, m9, m10, m11, m12, m13, m14, m15)
         == m0 * Expansion3(m5, m9, m13, m6, m10, m14, m7, m11, m15) - m1 * Expansion3(m4, m8, m12, m6, m10, m14, m7, m11, m15)
          + m2 * Expansion3(m4, m8, m12, m5, m9, m13, m7, m11, m15) - m3 * Expansion3(m4, m8, m12, m5, m9, m13, m6, m10, m14)
  {
  }

  /**
   * Column c of the 3 x 3 identity over plain products: with c0, c1, c2 the cofactors
   * `invert` puts in column c, row r of the matrix times that column is d when r == c and
   * 0 otherwise.  (Entry k of the matrix is mk, in column-major order.)
   */
  lemma Adjugate3Poly0(m0: real, m1: real, m2: real, m3: real, m4: real, m5: real,
    m6: real, m7: real, m8: real, c0: real, c1: real, c2: real,
    d: real)
    requires d == m0 * (m4 * m8 - m7 * m5) - m3 * (m1 * m8 - m7 * m2) + m6 * (m1 * m5 - m4 * m2)
    requires c0 == m4 * m8 - m5 * m7
    requires c1 == -(m1 * m8 - m2 * m7)
    requires c2 == m1 * m5 - m2 * m4
    ensures m0 * c0 + m3 * c1 + m6 * c2 == d
    ensures m1 * c0 + m4 * c1 + m7 * c2 == 0.0
    ensures m2 * c0 + m5 * c1 + m8 * c2 == 0.0
  {
  }

  lemma Adjugate3Poly1(m0: real, m1: real, m2: real, m3: real, m4: real, m5: real,
    m6: real, m7: real, m8: real, c0: real, c1: real, c2: real,
    d: real)
    requires d == m0 * (m4 * m8 - m7 * m5) - m3 * (m1 * m8 - m7 * m2) + m6 * (m1 * m5 - m4 * m2)
    requires c0 == -(m3 * m8 - m5 * m6)
    requires c1 == m0 * m8 - m2 * m6
    requires c2 == -(m0 * m5 - m2 * m3)
    ensures m0 * c0 + m3 * c1 + m6 * c2 == 0.0
    ensures m1 * c0 + m4 * c1 + m7 * c2 == d
    ensures m2 * c0 + m5 * c1 + m8 * c2 == 0.0
  {
  }

  lemma Adjugate3Poly2(m0: real, m1: real, m2: real, m3: real, m4: real, m5: real,
    m6: real, m7: real, m8: real, c0: real, c1: real, c2: real,
    d: real)
    requires d == m0 * (m4 * m8 - m7 * m5) - m3 * (m1 * m8 - m7 * m2) + m6 * (m1 * m5 - m4 * m2)
    requires c0 == m3 * m7 - m4 * m6
    requires c1 == -(m0 * m7 - m1 * m6)
    requires c2 == m0 * m4 - m1 * m3
    ensures m0 * c0 + m3 * c1 + m6 * c2 == 0.0
    ensures m1 * c0 + m4 * c1 + m7 * c2 == 0.0
    ensures m2 * c0 + m5 * c1 + m8 * c2 == d
  {
  }

  /** The same identities over `Times`, with the cofactors given as `Det2` of their minors. */
  lemma Adjugate3Column0(m0: real, m1: real, m2: real, m3: real, m4: real, m5: real,
    m6: real, m7: real, m8: real, c0: real, c1: real, c2: real,
    d: real)
    requires d == Times(m0, Times(m4, m8) - Times(m7, m5)) - Times(m3, Times(m1, m8) - Times(m7, m2)) + Times(m6, Times(m1, m5) - Times(m4, m2))
    requires c0 == Det2(m4, m7, m5, m8)
    requires c1 == -Det2(m1, m7, m2, m8)
    requires c2 == Det2(m1, m4, m2, m5)
    ensures Times(m0, c0) + Times(m3, c1) + Times(m6, c2) == d
    ensures Times(m1, c0) + Times(m4, c1) + Times(m7, c2) == 0.0
    ensures Times(m2, c0) + Times(m5, c1) + Times(m8, c2) == 0.0
  {
    Adjugate3Poly0(m0, m1, m2, m3, m4, m5, m6, m7, m8, c0, c1, c2, d);
  }

  lemma Adjugate3Column1(m0: real, m1: real, m2: real, m3: real, m4: real, m5: real,
    m6: real, m7: real, m8: real, c0: real, c1: real, c2: real,
    d: real)
    requires d == Times(m0, Times(m4, m8) - Times(m7, m5)) - Times(m3, Times(m1, m8) - Times(m7, m2)) + Times(m6, Times(m1, m5) - Times(m4, m2))
    requires c0 == -Det2(m3, m6, m5, m8)
    requires c1 == Det2(m0, m6, m2, m8)
    requires c2 == -Det2(m0, m3, m2, m5)
    ensures Times(m0, c0) + Times(m3, c1) + Times(m6, c2) == 0.0
    ensures Times(m1, c0) + Times(m4, c1) + Times(m7, c2) == d
    ensures Times(m2, c0) + Times(m5, c1) + Times(m8, c2) == 0.0
  {
    Adjugate3Poly1(m0, m1, m2, m3, m4, m5, m6, m7, m8, c0, c1, c2, d);
  }

  lemma Adjugate3Column2(m0: real, m1: real, m2: real, m3: real, m4: real, m5: real,
    m6: real, m7: real, m8: real, c0: real, c1: real, c2: real,
    d: real)
    requires d == Times(m0, Times(m4, m8) - Times(m7, m5)) - Times(m3, Times(m1, m8) - Times(m7, m2)) + Times(m6, Times(m1, m5) - Times(m4, m2))
    requires c0 == Det2(m3, m6, m4, m7)
    requires c1 == -Det2(m0, m6, m1, m7)
    requires c2 == Det2(m0, m3, m1, m4)
    ensures Times(m0, c0) + Times(m3, c1) + Times(m6, c2) == 0.0
    ensures Times(m1, c0) + Times(m4, c1) + Times(m7, c2) == 0.0
    ensures Times(m2, c0) + Times(m5, c1) + Times(m8, c2) == d
  {
    Adjugate3Poly2(m0, m1, m2, m3, m4, m5, m6, m7, m8, c0, c1, c2, d);
  }

  /** Dividing every entry of a column by d divides each row-times-column sum by d. */
  lemma DivideColumn3(a0: real, a1: real, a2: real, x0: real, x1: real, x2: real, d: real)
    requires d != 0.0
    ensures Times(a0, x0 / d) + Times(a1, x1 / d) + Times(a2, x2 / d) == (Times(a0, x0) + Times(a1, x1) + Times(a2, x2)) / d
  {
  }

  /** Multiplying every entry of a column by s multiplies each row-times-column sum by s. */
  lemma ScaleColumn4(a0: real, a1: real, a2: real, a3: real, x0: real, x1: real, x2: real, x3: real, s: real)
    ensures Times(a0, Times(x0, s)) + Times(a1, Times(x1, s)) + Times(a2, Times(x2, s)) + Times(a3, Times(x3, s))
         == Times(Times(a0, x0) + Times(a1, x1) + Times(a2, x2) + Times(a3, x3), s)
  {
  }

  /**
   * Row r of a 4 x 4 matrix times column c of the cofactors `M4.invert` computes, over
   * plain products with every minor written out: the determinant when r == c, else 0.
   * Entry 4X + Y of the matrix is aXY, as `invert` names it.
   */
  lemma Adjugate4Poly00(a00: real, a01: real, a02: real, a03: real, a10: real, a11: real,
    a12: real, a13: real, a20: real, a21: real, a22: real, a23: real,
    a30: real, a31: real, a32: real, a33: real, x0: real, x1: real,
    x2: real, x3: real, d: real)
    requires d == (a00 * a11 - a01 * a10) * (a22 * a33 - a23 * a32) - (a00 * a12 - a02 * a10) * (a21 * a33 - a23 * a31) + (a00 * a13 - a03 * a10) * (a21 * a32 - a22 * a31) + (a01 * a12 - a02 * a11) * (a20 * a33 - a23 * a30) - (a01 * a13 - a03 * a11) * (a20 * a32 - a22 * a30) + (a02 * a13 - a03 * a12) * (a20 * a31 - a21 * a30)
    requires x0 == a11 * (a22 * a33 - a23 * a32) - a12 * (a21 * a33 - a23 * a31) + a13 * (a21 * a32 - a22 * a31)
    requires x1 == a02 * (a21 * a33 - a23 * a31) - a01 * (a22 * a33 - a23 * a32) - a03 * (a21 * a32 - a22 * a31)
    requires x2 == a31 * (a02 * a13 - a03 * a12) - a32 * (a01 * a13 - a03 * a11) + a33 * (a01 * a12 - a02 * a11)
    requires x3 == a22 * (a01 * a13 - a03 * a11) - a21 * (a02 * a13 - a03 * a12) - a23 * (a01 * a12 - a02 * a11)
    ensures a00 * x0 + a10 * x1 + a20 * x2 + a30 * x3 == d
  {
  }

  lemma Adjugate4Poly01(a00: real, a01: real, a02: real, a03: real, a10: real, a11: real,
    a12: real, a13: real, a20: real, a21: real, a22: real, a23: real,
    a30: real, a31: real, a32: real, a33: real, x0: real, x1: real,
    x2: real, x3: real, d: real)
    requires d == (a00 * a11 - a01 * a10) * (a22 * a33 - a23 * a32) - (a00 * a12 - a02 * a10) * (a21 * a33 - a23 * a31) + (a00 * a13 - a03 * a10) * (a21 * a32 - a22 * a31) + (a01 * a12 - a02 * a11) * (a20 * a33 - a23 * a30) - (a01 * a13 - a03 * a11) * (a20 * a32 - a22 * a30) + (a02 * a13 - a03 * a12) * (a20 * a31 - a21 * a30)
    requires x0 == a12 * (a20 * a33 - a23 * a30) - a10 * (a22 * a33 - a23 * a32) - a13 * (a20 * a32 - a22 * a30)
    requires x1 == a00 * (a22 * a33 - a23 * a32) - a02 * (a20 * a33 - a23 * a30) + a03 * (a20 * a32 - a22 * a30)
    requires x2 == a32 * (a00 * a13 - a03 * a10) - a30 * (a02 * a13 - a03 * a12) - a33 * (a00 * a12 - a02 * a10)
    requires x3 == a20 * (a02 * a13 - a03 * a12) - a22 * (a00 * a13 - a03 * a10) + a23 * (a00 * a12 - a02 * a10)
    ensures a00 * x0 + a10 * x1 + a20 * x2 + a30 * x3 == 0.0
  {
  }

  lemma Adjugate4Poly02(a00: real, a01: real, a02: real, a03: real, a10: real, a11: real,
    a12: real, a13: real, a20: real, a21: real, a22: real, a23: real,
    a30: real, a31: real, a32: real, a33: real, x0: real, x1: real,
    x2: real, x3: real, d: real)
    requires d == (a00 * a11 - a01 * a10) * (a22 * a33 - a23 * a32) - (a00 * a12 - a02 * a10) * (a21 * a33 - a23 * a31) + (a00 * a13 - a03 * a10) * (a21 * a32 - a22 * a31) + (a01 * a12 - a02 * a11) * (a20 * a33 - a23 * a30) - (a01 * a13 - a03 * a11) * (a20 * a32 - a22 * a30) + (a02 * a13 - a03 * a12) * (a20 * a31 - a21 * a30)
    requires x0 == a10 * (a21 * a33 - a23 * a31) - a11 * (a20 * a33 - a23 * a30) + a13 * (a20 * a31 - a21 * a30)
    requires x1 == a01 * (a20 * a33 - a23 * a30) - a00 * (a21 * a33 - a23 * a31) - a03 * (a20 * a31 - a21 * a30)
    requires x2 == a30 * (a01 * a13 - a03 * a11) - a31 * (a00 * a13 - a03 * a10) + a33 * (a00 * a11 - a01 * a10)
    requires x3 == a21 * (a00 * a13 - a03 * a10) - a20 * (a01 * a13 - a03 * a11) - a23 * (a00 * a11 - a01 * a10)
    ensures a00 * x0 + a10 * x1 + a20 * x2 + a30 * x3 == 0.0
  {
  }

  lemma Adjugate4Poly03(a00: real, a01: real, a02: real, a03: real, a10: real, a11: real,
    a12: real, a13: real, a20: real, a21: real, a22: real, a23: real,
    a30: real, a31: real, a32: real, a33: real, x0: real, x1: real,
    x2: real, x3: real, d: real)
    requires d == (a00 * a11 - a01 * a10) * (a22 * a33 - a23 * a32) - (a00 * a12 - a02 * a10) * (a21 * a33 - a23 * a31) + (a00 * a13 - a03 * a10) * (a21 * a32 - a22 * a31) + (a01 * a12 - a02 * a11) * (a20 * a33 - a23 * a30) - (a01 * a13 - a03 * a11) * (a20 * a32 - a22 * a30) + (a02 * a13 - a03 * a12) * (a20 * a31 - a21 * a30)
    requires x0 == a11 * (a20 * a32 - a22 * a30) - a10 * (a21 * a32 - a22 * a31) - a12 * (a20 * a31 - a21 * a30)
    requires x1 == a00 * (a21 * a32 - a22 * a31) - a01 * (a20 * a32 - a22 * a30) + a02 * (a20 * a31 - a21 * a30)
    requires x2 == a31 * (a00 * a12 - a02 * a10) - a30 * (a01 * a12 - a02 * a11) - a32 * (a00 * a11 - a01 * a10)
    requires x3 == a20 * (a01 * a12 - a02 * a11) - a21 * (a00 * a12 - a02 * a10) + a22 * (a00 * a11 - a01 * a10)
    ensures a00 * x0 + a10 * x1 + a20 * x2 + a30 * x3 == 0.0
  {
  }

  lemma Adjugate4Poly10(a00: real, a01: real, a02: real, a03: real, a10: real, a11: real,
    a12: real, a13: real, a20: real, a21: real, a22: real, a23: real,
    a30: real, a31: real, a32: real, a33: real, x0: real, x1: real,
    x2: real, x3: real, d: real)
    requires d == (a00 * a11 - a01 * a10) * (a22 * a33 - a23 * a32) - (a00 * a12 - a02 * a10) * (a21 * a33 - a23 * a31) + (a00 * a13 - a03 * a10) * (a21 * a32 - a22 * a31) + (a01 * a12 - a02 * a11) * (a20 * a33 - a23 * a30) - (a01 * a13 - a03 * a11) * (a20 * a32 - a22 * a30) + (a02 * a13 - a03 * a12) * (a20 * a31 - a21 * a30)
    requires x0 == a11 * (a22 * a33 - a23 * a32) - a12 * (a21 * a33 - a23 * a31) + a13 * (a21 * a32 - a22 * a31)
    requires x1 == a02 * (a21 * a33 - a23 * a31) - a01 * (a22 * a33 - a23 * a32) - a03 * (a21 * a32 - a22 * a31)
    requires x2 == a31 * (a02 * a13 - a03 * a12) - a32 * (a01 * a13 - a03 * a11) + a33 * (a01 * a12 - a02 * a11)
    requires x3 == a22 * (a01 * a13 - a03 * a11) - a21 * (a02 * a13 - a03 * a12) - a23 * (a01 * a12 - a02 * a11)
    ensures a01 * x0 + a11 * x1 + a21 * x2 + a31 * x3 == 0.0
  {
  }

  lemma Adjugate4Poly11(a00: real, a01: real, a02: real, a03: real, a10: real, a11: real,
    a12: real, a13: real, a20: real, a21: real, a22: real, a23: real,
    a30: real, a31: real, a32: real, a33: real, x0: real, x1: real,
    x2: real, x3: real, d: real)
    requires d == (a00 * a11 - a01 * a10) * (a22 * a33 - a23 * a32) - (a00 * a12 - a02 * a10) * (a21 * a33 - a23 * a31) + (a00 * a13 - a03 * a10) * (a21 * a32 - a22 * a31) + (a01 * a12 - a02 * a11) * (a20 * a33 - a23 * a30) - (a01 * a13 - a03 * a11) * (a20 * a32 - a22 * a30) + (a02 * a13 - a03 * a12) * (a20 * a31 - a21 * a30)
    requires x0 == a12 * (a20 * a33 - a23 * a30) - a10 * (a22 * a33 - a23 * a32) - a13 * (a20 * a32 - a22 * a30)
    requires x1 == a00 * (a22 * a33 - a23 * a32) - a02 * (a20 * a33 - a23 * a30) + a03 * (a20 * a32 - a22 * a30)
    requires x2 == a32 * (a00 * a13 - a03 * a10) - a30 * (a02 * a13 - a03 * a12) - a33 * (a00 * a12 - a02 * a10)
    requires x3 == a20 * (a02 * a13 - a03 * a12) - a22 * (a00 * a13 - a03 * a10) + a23 * (a00 * a12 - a02 * a10)
    ensures a01 * x0 + a11 * x1 + a21 * x2 + a31 * x3 == d
  {
  }

  lemma Adjugate4Poly12(a00: real, a01: real, a02: real, a03: real, a10: real, a11: real,
    a12: real, a13: real, a20: real, a21: real, a22: real, a23: real,
    a30: real, a31: real, a32: real, a33: real, x0: real, x1: real,
    x2: real, x3: real, d: real)
    requires d == (a00 * a11 - a01 * a10) * (a22 * a33 - a23 * a32) - (a00 * a12 - a02 * a10) * (a21 * a33 - a23 * a31) + (a00 * a13 - a03 * a10) * (a21 * a32 - a22 * a31) + (a01 * a12 - a02 * a11) * (a20 * a33 - a23 * a30) - (a01 * a13 - a03 * a11) * (a20 * a32 - a22 * a30) + (a02 * a13 - a03 * a12) * (a20 * a31 - a21 * a30)
    requires x0 == a10 * (a21 * a33 - a23 * a31) - a11 * (a20 * a33 - a23 * a30) + a13 * (a20 * a31 - a21 * a30)
    requires x1 == a01 * (a20 * a33 - a23 * a30) - a00 * (a21 * a33 - a23 * a31) - a03 * (a20 * a31 - a21 * a30)
    requires x2 == a30 * (a01 * a13 - a03 * a11) - a31 * (a00 * a13 - a03 * a10) + a33 * (a00 * a11 - a01 * a10)
    requires x3 == a21 * (a00 * a13 - a03 * a10) - a20 * (a01 * a13 - a03 * a11) - a23 * (a00 * a11 - a01 * a10)
    ensures a01 * x0 + a11 * x1 + a21 * x2 + a31 * x3 == 0.0
  {
  }

  lemma Adjugate4Poly13(a00: real, a01: real, a02: real, a03: real, a10: real, a11: real,
    a12: real, a13: real, a20: real, a21: real, a22: real, a23: real,
    a30: real, a31: real, a32: real, a33: real, x0: real, x1: real,
    x2: real, x3: real, d: real)
    requires d == (a00 * a11 - a01 * a10) * (a22 * a33 - a23 * a32) - (a00 * a12 - a02 * a10) * (a21 * a33 - a23 * a31) + (a00 * a13 - a03 * a10) * (a21 * a32 - a22 * a31) + (a01 * a12 - a02 * a11) * (a20 * a33 - a23 * a30) - (a01 * a13 - a03 * a11) * (a20 * a32 - a22 * a30) + (a02 * a13 - a03 * a12) * (a20 * a31 - a21 * a30)
    requires x0 == a11 * (a20 * a32 - a22 * a30) - a10 * (a21 * a32 - a22 * a31) - a12 * (a20 * a31 - a21 * a30)
    requires x1 == a00 * (a21 * a32 - a22 * a31) - a01 * (a20 * a32 - a22 * a30) + a02 * (a20 * a31 - a21 * a30)
    requires x2 == a31 * (a00 * a12 - a02 * a10) - a30 * (a01 * a12 - a02 * a11) - a32 * (a00 * a11 - a01 * a10)
    requires x3 == a20 * (a01 * a12 - a02 * a11) - a21 * (a00 * a12 - a02 * a10) + a22 * (a00 * a11 - a01 * a10)
    ensures a01 * x0 + a11 * x1 + a21 * x2 + a31 * x3 == 0.0
  {
  }

  lemma Adjugate4Poly20(a00: real, a01: real, a02: real, a03: real, a10: real, a11: real,
    a12: real, a13: real, a20: real, a21: real, a22: real, a23: real,
    a30: real, a31: real, a32: real, a33: real, x0: real, x1: real,
    x2: real, x3: real, d: real)
    requires d == (a00 * a11 - a01 * a10) * (a22 * a33 - a23 * a32) - (a00 * a12 - a02 * a10) * (a21 * a33 - a23 * a31) + (a00 * a13 - a03 * a10) * (a21 * a32 - a22 * a31) + (a01 * a12 - a02 * a11) * (a20 * a33 - a23 * a30) - (a01 * a13 - a03 * a11) * (a20 * a32 - a22 * a30) + (a02 * a13 - a03 * a12) * (a20 * a31 - a21 * a30)
    requires x0 == a11 * (a22 * a33 - a23 * a32) - a12 * (a21 * a33 - a23 * a31) + a13 * (a21 * a32 - a22 * a31)
    requires x1 == a02 * (a21 * a33 - a23 * a31) - a01 * (a22 * a33 - a23 * a32) - a03 * (a21 * a32 - a22 * a31)
    requires x2 == a31 * (a02 * a13 - a03 * a12) - a32 * (a01 * a13 - a03 * a11) + a33 * (a01 * a12 - a02 * a11)
    requires x3 == a22 * (a01 * a13 - a03 * a11) - a21 * (a02 * a13 - a03 * a12) - a23 * (a01 * a12 - a02 * a11)
    ensures a02 * x0 + a12 * x1 + a22 * x2 + a32 * x3 == 0.0
  {
  }

  lemma Adjugate4Poly21(a00: real, a01: real, a02: real, a03: real, a10: real, a11: real,
    a12: real, a13: real, a20: real, a21: real, a22: real, a23: real,
    a30: real, a31: real, a32: real, a33: real, x0: real, x1: real,
    x2: real, x3: real, d: real)
    requires d == (a00 * a11 - a01 * a10) * (a22 * a33 - a23 * a32) - (a00 * a12 - a02 * a10) * (a21 * a33 - a23 * a31) + (a00 * a13 - a03 * a10) * (a21 * a32 - a22 * a31) + (a01 * a12 - a02 * a11) * (a20 * a33 - a23 * a30) - (a01 * a13 - a03 * a11) * (a20 * a32 - a22 * a30) + (a02 * a13 - a03 * a12) * (a20 * a31 - a21 * a30)
    requires x0 == a12 * (a20 * a33 - a23 * a30) - a10 * (a22 * a33 - a23 * a32) - a13 * (a20 * a32 - a22 * a30)
    requires x1 == a00 * (a22 * a33 - a23 * a32) - a02 * (a20 * a33 - a23 * a30) + a03 * (a20 * a32 - a22 * a30)
    requires x2 == a32 * (a00 * a13 - a03 * a10) - a30 * (a02 * a13 - a03 * a12) - a33 * (a00 * a12 - a02 * a10)
    requires x3 == a20 * (a02 * a13 - a03 * a12) - a22 * (a00 * a13 - a03 * a10) + a23 * (a00 * a12 - a02 * a10)
    ensures a02 * x0 + a12 * x1 + a22 * x2 + a32 * x3 == 0.0
  {
  }

  lemma Adjugate4Poly22(a00: real, a01: real, a02: real, a03: real, a10: real, a11: real,
    a12: real, a13: real, a20: real, a21: real, a22: real, a23: real,
    a30: real, a31: real, a32: real, a33: real, x0: real, x1: real,
    x2: real, x3: real, d: real)
    requires d == (a00 * a11 - a01 * a10) * (a22 * a33 - a23 * a32) - (a00 * a12 - a02 * a10) * (a21 * a33 - a23 * a31) + (a00 * a13 - a03 * a10) * (a21 * a32 - a22 * a31) + (a01 * a12 - a02 * a11) * (a20 * a33 - a23 * a30) - (a01 * a13 - a03 * a11) * (a20 * a32 - a22 * a30) + (a02 * a13 - a03 * a12) * (a20 * a31 - a21 * a30)
    requires x0 == a10 * (a21 * a33 - a23 * a31) - a11 * (a20 * a33 - a23 * a30) + a13 * (a20 * a31 - a21 * a30)
    requires x1 == a01 * (a20 * a33 - a23 * a30) - a00 * (a21 * a33 - a23 * a31) - a03 * (a20 * a31 - a21 * a30)
    requires x2 == a30 * (a01 * a13 - a03 * a11) - a31 * (a00 * a13 - a03 * a10) + a33 * (a00 * a11 - a01 * a10)
    requires x3 == a21 * (a00 * a13 - a03 * a10) - a20 * (a01 * a13 - a03 * a11) - a23 * (a00 * a11 - a01 * a10)
    ensures a02 * x0 + a12 * x1 + a22 * x2 + a32 * x3 == d
  {
  }

  lemma Adjugate4Poly23(a00: real, a01: real, a02: real, a03: real, a10: real, a11: real,
    a12: real, a13: real, a20: real, a21: real, a22: real, a23: real,
    a30: real, a31: real, a32: real, a33: real, x0: real, x1: real,
    x2: real, x3: real, d: real)
    requires d == (a00 * a11 - a01 * a10) * (a22 * a33 - a23 * a32) - (a00 * a12 - a02 * a10) * (a21 * a33 - a23 * a31) + (a00 * a13 - a03 * a10) * (a21 * a32 - a22 * a31) + (a01 * a12 - a02 * a11) * (a20 * a33 - a23 * a30) - (a01 * a13 - a03 * a11) * (a20 * a32 - a22 * a30) + (a02 * a13 - a03 * a12) * (a20 * a31 - a21 * a30)
    requires x0 == a11 * (a20 * a32 - a22 * a30) - a10 * (a21 * a32 - a22 * a31) - a12 * (a20 * a31 - a21 * a30)
    requires x1 == a00 * (a21 * a32 - a22 * a31) - a01 * (a20 * a32 - a22 * a30) + a02 * (a20 * a31 - a21 * a30)
    requires x2 == a31 * (a00 * a12 - a02 * a10) - a30 * (a01 * a12 - a02 * a11) - a32 * (a00 * a11 - a01 * a10)
    requires x3 == a20 * (a01 * a12 - a02 * a11) - a21 * (a00 * a12 - a02 * a10) + a22 * (a00 * a11 - a01 * a10)
    ensures a02 * x0 + a12 * x1 + a22 * x2 + a32 * x3 == 0.0
  {
  }

  lemma Adjugate4Poly30(a00: real, a01: real, a02: real, a03: real, a10: real, a11: real,
    a12: real, a13: real, a20: real, a21: real, a22: real, a23: real,
    a30: real, a31: real, a32: real, a33: real, x0: real, x1: real,
    x2: real, x3: real, d: real)
    requires d == (a00 * a11 - a01 * a10) * (a22 * a33 - a23 * a32) - (a00 * a12 - a02 * a10) * (a21 * a33 - a23 * a31) + (a00 * a13 - a03 * a10) * (a21 * a32 - a22 * a31) + (a01 * a12 - a02 * a11) * (a20 * a33 - a23 * a30) - (a01 * a13 - a03 * a11) * (a20 * a32 - a22 * a30) + (a02 * a13 - a03 * a12) * (a20 * a31 - a21 * a30)
    requires x0 == a11 * (a22 * a33 - a23 * a32) - a12 * (a21 * a33 - a23 * a31) + a13 * (a21 * a32 - a22 * a31)
    requires x1 == a02 * (a21 * a33 - a23 * a31) - a01 * (a22 * a33 - a23 * a32) - a03 * (a21 * a32 - a22 * a31)
    requires x2 == a31 * (a02 * a13 - a03 * a12) - a32 * (a01 * a13 - a03 * a11) + a33 * (a01 * a12 - a02 * a11)
    requires x3 == a22 * (a01 * a13 - a03 * a11) - a21 * (a02 * a13 - a03 * a12) - a23 * (a01 * a12 - a02 * a11)
    ensures a03 * x0 + a13 * x1 + a23 * x2 + a33 * x3 == 0.0
  {
  }

  lemma Adjugate4Poly31(a00: real, a01: real, a02: real, a03: real, a10: real, a11: real,
    a12: real, a13: real, a20: real, a21: real, a22: real, a23: real,
    a30: real, a31: real, a32: real, a33: real, x0: real, x1: real,
    x2: real, x3: real, d: real)
    requires d == (a00 * a11 - a01 * a10) * (a22 * a33 - a23 * a32) - (a00 * a12 - a02 * a10) * (a21 * a33 - a23 * a31) + (a00 * a13 - a03 * a10) * (a21 * a32 - a22 * a31) + (a01 * a12 - a02 * a11) * (a20 * a33 - a23 * a30) - (a01 * a13 - a03 * a11) * (a20 * a32 - a22 * a30) + (a02 * a13 - a03 * a12) * (a20 * a31 - a21 * a30)
    requires x0 == a12 * (a20 * a33 - a23 * a30) - a10 * (a22 * a33 - a23 * a32) - a13 * (a20 * a32 - a22 * a30)
    requires x1 == a00 * (a22 * a33 - a23 * a32) - a02 * (a20 * a33 - a23 * a30) + a03 * (a20 * a32 - a22 * a30)
    requires x2 == a32 * (a00 * a13 - a03 * a10) - a30 * (a02 * a13 - a03 * a12) - a33 * (a00 * a12 - a02 * a10)
    requires x3 == a20 * (a02 * a13 - a03 * a12) - a22 * (a00 * a13 - a03 * a10) + a23 * (a00 * a12 - a02 * a10)
    ensures a03 * x0 + a13 * x1 + a23 * x2 + a33 * x3 == 0.0
  {
  }

  lemma Adjugate4Poly32(a00: real, a01: real, a02: real, a03: real, a10: real, a11: real,
    a12: real, a13: real, a20: real, a21: real, a22: real, a23: real,
    a30: real, a31: real, a32: real, a33: real, x0: real, x1: real,
    x2: real, x3: real, d: real)
    requires d == (a00 * a11 - a01 * a10) * (a22 * a33 - a23 * a32) - (a00 * a12 - a02 * a10) * (a21 * a33 - a23 * a31) + (a00 * a13 - a03 * a10) * (a21 * a32 - a22 * a31) + (a01 * a12 - a02 * a11) * (a20 * a33 - a23 * a30) - (a01 * a13 - a03 * a11) * (a20 * a32 - a22 * a30) + (a02 * a13 - a03 * a12) * (a20 * a31 - a21 * a30)
    requires x0 == a10 * (a21 * a33 - a23 * a31) - a11 * (a20 * a33 - a23 * a30) + a13 * (a20 * a31 - a21 * a30)
    requires x1 == a01 * (a20 * a33 - a23 * a30) - a00 * (a21 * a33 - a23 * a31) - a03 * (a20 * a31 - a21 * a30)
    requires x2 == a30 * (a01 * a13 - a03 * a11) - a31 * (a00 * a13 - a03 * a10) + a33 * (a00 * a11 - a01 * a10)
    requires x3 == a21 * (a00 * a13 - a03 * a10) - a20 * (a01 * a13 - a03 * a11) - a23 * (a00 * a11 - a01 * a10)
    ensures a03 * x0 + a13 * x1 + a23 * x2 + a33 * x3 == 0.0
  {
  }

  lemma Adjugate4Poly33(a00: real, a01: real, a02: real, a03: real, a10: real, a11: real,
    a12: real, a13: real, a20: real, a21: real, a22: real, a23: real,
    a30: real, a31: real, a32: real, a33: real, x0: real, x1: real,
    x2: real, x3: real, d: real)
    requires d == (a00 * a11 - a01 * a10) * (a22 * a33 - a23 * a32) - (a00 * a12 - a02 * a10) * (a21 * a33 - a23 * a31) + (a00 * a13 - a03 * a10) * (a21 * a32 - a22 * a31) + (a01 * a12 - a02 * a11) * (a20 * a33 - a23 * a30) - (a01 * a13 - a03 * a11) * (a20 * a32 - a22 * a30) + (a02 * a13 - a03 * a12) * (a20 * a31 - a21 * a30)
    requires x0 == a11 * (a20 * a32 - a22 * a30) - a10 * (a21 * a32 - a22 * a31) - a12 * (a20 * a31 - a21 * a30)
    requires x1 == a00 * (a21 * a32 - a22 * a31) - a01 * (a20 * a32 - a22 * a30) + a02 * (a20 * a31 - a21 * a30)
    requires x2 == a31 * (a00 * a12 - a02 * a10) - a30 * (a01 * a12 - a02 * a11) - a32 * (a00 * a11 - a01 * a10)
    requires x3 == a20 * (a01 * a12 - a02 * a11) - a21 * (a00 * a12 - a02 * a10) + a22 * (a00 * a11 - a01 * a10)
    ensures a03 * x0 + a13 * x1 + a23 * x2 + a33 * x3 == d
  {
  }

  /**
   * The cofactors of column c and the determinant, as `invert` computes them from the
   * twelve 2 x 2 minors b00 .. b11, are these polynomials in the entries.
   */
  lemma Minors4Expand0(a00: real, a01: real, a02: real, a03: real, a10: real, a11: real,
    a12: real, a13: real, a20: real, a21: real, a22: real, a23: real,
    a30: real, a31: real, a32: real, a33: real, b00: real, b01: real,
    b02: real, b03: real, b04: real, b05: real, b06: real, b07: real,
    b08: real, b09: real, b10: real, b11: real, x0: real, x1: real,
    x2: real, x3: real, d: real)
    requires b00 == a00 * a11 - a01 * a10
    requires b01 == a00 * a12 - a02 * a10
    requires b02 == a00 * a13 - a03 * a10
    requires b03 == a01 * a12 - a02 * a11
    requires b04 == a01 * a13 - a03 * a11
    requires b05 == a02 * a13 - a03 * a12
    requires b06 == a20 * a31 - a21 * a30
    requires b07 == a20 * a32 - a22 * a30
    requires b08 == a20 * a33 - a23 * a30
    requires b09 == a21 * a32 - a22 * a31
    requires b10 == a21 * a33 - a23 * a31
    requires b11 == a22 * a33 - a23 * a32
    requires d == b00 * b11 - b01 * b10 + b02 * b09 + b03 * b08 - b04 * b07 + b05 * b06
    requires x0 == a11 * b11 - a12 * b10 + a13 * b09
    requires x1 == a02 * b10 - a01 * b11 - a03 * b09
    requires x2 == a31 * b05 - a32 * b04 + a33 * b03
    requires x3 == a22 * b04 - a21 * b05 - a23 * b03
    ensures x0 == a11 * (a22 * a33 - a23 * a32) - a12 * (a21 * a33 - a23 * a31) + a13 * (a21 * a32 - a22 * a31)
    ensures x1 == a02 * (a21 * a33 - a23 * a31) - a01 * (a22 * a33 - a23 * a32) - a03 * (a21 * a32 - a22 * a31)
    ensures x2 == a31 * (a02 * a13 - a03 * a12) - a32 * (a01 * a13 - a03 * a11) + a33 * (a01 * a12 - a02 * a11)
    ensures x3 == a22 * (a01 * a13 - a03 * a11) - a21 * (a02 * a13 - a03 * a12) - a23 * (a01 * a12 - a02 * a11)
    ensures d == (a00 * a11 - a01 * a10) * (a22 * a33 - a23 * a32) - (a00 * a12 - a02 * a10) * (a21 * a33 - a23 * a31) + (a00 * a13 - a03 * a10) * (a21 * a32 - a22 * a31) + (a01 * a12 - a02 * a11) * (a20 * a33 - a23 * a30) - (a01 * a13 - a03 * a11) * (a20 * a32 - a22 * a30) + (a02 * a13 - a03 * a12) * (a20 * a31 - a21 * a30)
  {
  }

  lemma Minors4Expand1(a00: real, a01: real, a02: real, a03: real, a10: real, a11: real,
    a12: real, a13: real, a20: real, a21: real, a22: real, a23: real,
    a30: real, a31: real, a32: real, a33: real, b00: real, b01: real,
    b02: real, b03: real, b04: real, b05: real, b06: real, b07: real,
    b08: real, b09: real, b10: real, b11: real, x0: real, x1: real,
    x2: real, x3: real, d: real)
    requires b00 == a00 * a11 - a01 * a10
    requires b01 == a00 * a12 - a02 * a10
    requires b02 == a00 * a13 - a03 * a10
    requires b03 == a01 * a12 - a02 * a11
    requires b04 == a01 * a13 - a03 * a11
    requires b05 == a02 * a13 - a03 * a12
    requires b06 == a20 * a31 - a21 * a30
    requires b07 == a20 * a32 - a22 * a30
    requires b08 == a20 * a33 - a23 * a30
    requires b09 == a21 * a32 - a22 * a31
    requires b10 == a21 * a33 - a23 * a31
    requires b11 == a22 * a33 - a23 * a32
    requires d == b00 * b11 - b01 * b10 + b02 * b09 + b03 * b08 - b04 * b07 + b05 * b06
    requires x0 == a12 * b08 - a10 * b11 - a13 * b07
    requires x1 == a00 * b11 - a02 * b08 + a03 * b07
    requires x2 == a32 * b02 - a30 * b05 - a33 * b01
    requires x3 == a20 * b05 - a22 * b02 + a23 * b01
    ensures x0 == a12 * (a20 * a33 - a23 * a30) - a10 * (a22 * a33 - a23 * a32) - a13 * (a20 * a32 - a22 * a30)
    ensures x1 == a00 * (a22 * a33 - a23 * a32) - a02 * (a20 * a33 - a23 * a30) + a03 * (a20 * a32 - a22 * a30)
    ensures x2 == a32 * (a00 * a13 - a03 * a10) - a30 * (a02 * a13 - a03 * a12) - a33 * (a00 * a12 - a02 * a10)
    ensures x3 == a20 * (a02 * a13 - a03 * a12) - a22 * (a00 * a13 - a03 * a10) + a23 * (a00 * a12 - a02 * a10)
    ensures d == (a00 * a11 - a01 * a10) * (a22 * a33 - a23 * a32) - (a00 * a12 - a02 * a10) * (a21 * a33 - a23 * a31) + (a00 * a13 - a03 * a10) * (a21 * a32 - a22 * a31) + (a01 * a12 - a02 * a11) * (a20 * a33 - a23 * a30) - (a01 * a13 - a03 * a11) * (a20 * a32 - a22 * a30) + (a02 * a13 - a03 * a12) * (a20 * a31 - a21 * a30)
  {
  }

  lemma Minors4Expand2(a00: real, a01: real, a02: real, a03: real, a10: real, a11: real,
    a12: real, a13: real, a20: real, a21: real, a22: real, a23: real,
    a30: real, a31: real, a32: real, a33: real, b00: real, b01: real,
    b02: real, b03: real, b04: real, b05: real, b06: real, b07: real,
    b08: real, b09: real, b10: real, b11: real, x0: real, x1: real,
    x2: real, x3: real, d: real)
    requires b00 == a00 * a11 - a01 * a10
    requires b01 == a00 * a12 - a02 * a10
    requires b02 == a00 * a13 - a03 * a10
    requires b03 == a01 * a12 - a02 * a11
    requires b04 == a01 * a13 - a03 * a11
    requires b05 == a02 * a13 - a03 * a12
    requires b06 == a20 * a31 - a21 * a30
    requires b07 == a20 * a32 - a22 * a30
    requires b08 == a20 * a33 - a23 * a30
    requires b09 == a21 * a32 - a22 * a31
    requires b10 == a21 * a33 - a23 * a31
    requires b11 == a22 * a33 - a23 * a32
    requires d == b00 * b11 - b01 * b10 + b02 * b09 + b03 * b08 - b04 * b07 + b05 * b06
    requires x0 == a10 * b10 - a11 * b08 + a13 * b06
    requires x1 == a01 * b08 - a00 * b10 - a03 * b06
    requires x2 == a30 * b04 - a31 * b02 + a33 * b00
    requires x3 == a21 * b02 - a20 * b04 - a23 * b00
    ensures x0 == a10 * (a21 * a33 - a23 * a31) - a11 * (a20 * a33 - a23 * a30) + a13 * (a20 * a31 - a21 * a30)
    ensures x1 == a01 * (a20 * a33 - a23 * a30) - a00 * (a21 * a33 - a23 * a31) - a03 * (a20 * a31 - a21 * a30)
    ensures x2 == a30 * (a01 * a13 - a03 * a11) - a31 * (a00 * a13 - a03 * a10) + a33 * (a00 * a11 - a01 * a10)
    ensures x3 == a21 * (a00 * a13 - a03 * a10) - a20 * (a01 * a13 - a03 * a11) - a23 * (a00 * a11 - a01 * a10)
    ensures d == (a00 * a11 - a01 * a10) * (a22 * a33 - a23 * a32) - (a00 * a12 - a02 * a10) * (a21 * a33 - a23 * a31) + (a00 * a13 - a03 * a10) * (a21 * a32 - a22 * a31) + (a01 * a12 - a02 * a11) * (a20 * a33 - a23 * a30) - (a01 * a13 - a03 * a11) * (a20 * a32 - a22 * a30) + (a02 * a13 - a03 * a12) * (a20 * a31 - a21 * a30)
  {
  }

  lemma Minors4Expand3(a00: real, a01: real, a02: real, a03: real, a10: real, a11: real,
    a12: real, a13: real, a20: real, a21: real, a22: real, a23: real,
    a30: real, a31: real, a32: real, a33: real, b00: real, b01: real,
    b02: real, b03: real, b04: real, b05: real, b06: real, b07: real,
    b08: real, b09: real, b10: real, b11: real, x0: real, x1: real,
    x2: real, x3: real, d: real)
    requires b00 == a00 * a11 - a01 * a10
    requires b01 == a00 * a12 - a02 * a10
    requires b02 == a00 * a13 - a03 * a10
    requires b03 == a01 * a12 - a02 * a11
    requires b04 == a01 * a13 - a03 * a11
    requires b05 == a02 * a13 - a03 * a12
    requires b06 == a20 * a31 - a21 * a30
    requires b07 == a20 * a32 - a22 * a30
    requires b08 == a20 * a33 - a23 * a30
    requires b09 == a21 * a32 - a22 * a31
    requires b10 == a21 * a33 - a23 * a31
    requires b11 == a22 * a33 - a23 * a32
    requires d == b00 * b11 - b01 * b10 + b02 * b09 + b03 * b08 - b04 * b07 + b05 * b06
    requires x0 == a11 * b07 - a10 * b09 - a12 * b06
    requires x1 == a00 * b09 - a01 * b07 + a02 * b06
    requires x2 == a31 * b01 - a30 * b03 - a32 * b00
    requires x3 == a20 * b03 - a21 * b01 + a22 * b00
    ensures x0 == a11 * (a20 * a32 - a22 * a30) - a10 * (a21 * a32 - a22 * a31) - a12 * (a20 * a31 - a21 * a30)
    ensures x1 == a00 * (a21 * a32 - a22 * a31) - a01 * (a20 * a32 - a22 * a30) + a02 * (a20 * a31 - a21 * a30)
    ensures x2 == a31 * (a00 * a12 - a02 * a10) - a30 * (a01 * a12 - a02 * a11) - a32 * (a00 * a11 - a01 * a10)
    ensures x3 == a20 * (a01 * a12 - a02 * a11) - a21 * (a00 * a12 - a02 * a10) + a22 * (a00 * a11 - a01 * a10)
    ensures d == (a00 * a11 - a01 * a10) * (a22 * a33 - a23 * a32) - (a00 * a12 - a02 * a10) * (a21 * a33 - a23 * a31) + (a00 * a13 - a03 * a10) * (a21 * a32 - a22 * a31) + (a01 * a12 - a02 * a11) * (a20 * a33 - a23 * a30) - (a01 * a13 - a03 * a11) * (a20 * a32 - a22 * a30) + (a02 * a13 - a03 * a12) * (a20 * a31 - a21 * a30)
  {
  }

  /**
   * Column c of the 4 x 4 identity over `Times`, in the form of `M4.invert`: the matrix
   * times the cofactors of column c is d times column c of the identity.
   */
  lemma Adjugate4Column0(a00: real, a01: real, a02: real, a03: real, a10: real, a11: real,
    a12: real, a13: real, a20: real, a21: real, a22: real, a23: real,
    a30: real, a31: real, a32: real, a33: real, b00: real, b01: real,
    b02: real, b03: real, b04: real, b05: real, b06: real, b07: real,
    b08: real, b09: real, b10: real, b11: real, x0: real, x1: real,
    x2: real, x3: real, d: real)
    requires b00 == Times(a00, a11) - Times(a01, a10)
    requires b01 == Times(a00, a12) - Times(a02, a10)
    requires b02 == Times(a00, a13) - Times(a03, a10)
    requires b03 == Times(a01, a12) - Times(a02, a11)
    requires b04 == Times(a01, a13) - Times(a03, a11)
    requires b05 == Times(a02, a13) - Times(a03, a12)
    requires b06 == Times(a20, a31) - Times(a21, a30)
    requires b07 == Times(a20, a32) - Times(a22, a30)
    requires b08 == Times(a20, a33) - Times(a23, a30)
    requires b09 == Times(a21, a32) - Times(a22, a31)
    requires b10 == Times(a21, a33) - Times(a23, a31)
    requires b11 == Times(a22, a33) - Times(a23, a32)
    requires d == Times(b00, b11) - Times(b01, b10) + Times(b02, b09) + Times(b03, b08) - Times(b04, b07) + Times(b05, b06)
    requires x0 == Times(a11, b11) - Times(a12, b10) + Times(a13, b09)
    requires x1 == Times(a02, b10) - Times(a01, b11) - Times(a03, b09)
    requires x2 == Times(a31, b05) - Times(a32, b04) + Times(a33, b03)
    requires x3 == Times(a22, b04) - Times(a21, b05) - Times(a23, b03)
    ensures Times(a00, x0) + Times(a10, x1) + Times(a20, x2) + Times(a30, x3) == d
    ensures Times(a01, x0) + Times(a11, x1) + Times(a21, x2) + Times(a31, x3) == 0.0
    ensures Times(a02, x0) + Times(a12, x1) + Times(a22, x2) + Times(a32, x3) == 0.0
    ensures Times(a03, x0) + Times(a13, x1) + Times(a23, x2) + Times(a33, x3) == 0.0
  {
    Minors4Expand0(a00, a01, a02, a03, a10, a11, a12, a13, a20, a21, a22, a23, a30, a31, a32, a33, b00, b01, b02, b03, b04, b05, b06, b07, b08, b09, b10, b11, x0, x1, x2, x3, d);
    Adjugate4Poly00(a00, a01, a02, a03, a10, a11, a12, a13, a20, a21, a22, a23, a30, a31, a32, a33, x0, x1, x2, x3, d);
    Adjugate4Poly10(a00, a01, a02, a03, a10, a11, a12, a13, a20, a21, a22, a23, a30, a31, a32, a33, x0, x1, x2, x3, d);
    Adjugate4Poly20(a00, a01, a02, a03, a10, a11, a12, a13, a20, a21, a22, a23, a30, a31, a32, a33, x0, x1, x2, x3, d);
    Adjugate4Poly30(a00, a01, a02, a03, a10, a11, a12, a13, a20, a21, a22, a23, a30, a31, a32, a33, x0, x1, x2, x3, d);
  }

  lemma Adjugate4Column1(a00: real, a01: real, a02: real, a03: real, a10: real, a11: real,
    a12: real, a13: real, a20: real, a21: real, a22: real, a23: real,
    a30: real, a31: real, a32: real, a33: real, b00: real, b01: real,
    b02: real, b03: real, b04: real, b05: real, b06: real, b07: real,
    b08: real, b09: real, b10: real, b11: real, x0: real, x1: real,
    x2: real, x3: real, d: real)
    requires b00 == Times(a00, a11) - Times(a01, a10)
    requires b01 == Times(a00, a12) - Times(a02, a10)
    requires b02 == Times(a00, a13) - Times(a03, a10)
    requires b03 == Times(a01, a12) - Times(a02, a11)
    requires b04 == Times(a01, a13) - Times(a03, a11)
    requires b05 == Times(a02, a13) - Times(a03, a12)
    requires b06 == Times(a20, a31) - Times(a21, a30)
    requires b07 == Times(a20, a32) - Times(a22, a30)
    requires b08 == Times(a20, a33) - Times(a23, a30)
    requires b09 == Times(a21, a32) - Times(a22, a31)
    requires b10 == Times(a21, a33) - Times(a23, a31)
    requires b11 == Times(a22, a33) - Times(a23, a32)
    requires d == Times(b00, b11) - Times(b01, b10) + Times(b02, b09) + Times(b03, b08) - Times(b04, b07) + Times(b05, b06)
    requires x0 == Times(a12, b08) - Times(a10, b11) - Times(a13, b07)
    requires x1 == Times(a00, b11) - Times(a02, b08) + Times(a03, b07)
    requires x2 == Times(a32, b02) - Times(a30, b05) - Times(a33, b01)
    requires x3 == Times(a20, b05) - Times(a22, b02) + Times(a23, b01)
    ensures Times(a00, x0) + Times(a10, x1) + Times(a20, x2) + Times(a30, x3) == 0.0
    ensures Times(a01, x0) + Times(a11, x1) + Times(a21, x2) + Times(a31, x3) == d
    ensures Times(a02, x0) + Times(a12, x1) + Times(a22, x2) + Times(a32, x3) == 0.0
    ensures Times(a03, x0) + Times(a13, x1) + Times(a23, x2) + Times(a33, x3) == 0.0
  {
    Minors4Expand1(a00, a01, a02, a03, a10, a11, a12, a13, a20, a21, a22, a23, a30, a31, a32, a33, b00, b01, b02, b03, b04, b05, b06, b07, b08, b09, b10, b11, x0, x1, x2, x3, d);
    Adjugate4Poly01(a00, a01, a02, a03, a10, a11, a12, a13, a20, a21, a22, a23, a30, a31, a32, a33, x0, x1, x2, x3, d);
    Adjugate4Poly11(a00, a01, a02, a03, a10, a11, a12, a13, a20, a21, a22, a23, a30, a31, a32, a33, x0, x1, x2, x3, d);
    Adjugate4Poly21(a00, a01, a02, a03, a10, a11, a12, a13, a20, a21, a22, a23, a30, a31, a32, a33, x0, x1, x2, x3, d);
    Adjugate4Poly31(a00, a01, a02, a03, a10, a11, a12, a13, a20, a21, a22, a23, a30, a31, a32, a33, x0, x1, x2, x3, d);
  }

  lemma Adjugate4Column2(a00: real, a01: real, a02: real, a03: real, a10: real, a11: real,
    a12: real, a13: real, a20: real, a21: real, a22: real, a23: real,
    a30: real, a31: real, a32: real, a33: real, b00: real, b01: real,
    b02: real, b03: real, b04: real, b05: real, b06: real, b07: real,
    b08: real, b09: real, b10: real, b11: real, x0: real, x1: real,
    x2: real, x3: real, d: real)
    requires b00 == Times(a00, a11) - Times(a01, a10)
    requires b01 == Times(a00, a12) - Times(a02, a10)
    requires b02 == Times(a00, a13) - Times(a03, a10)
    requires b03 == Times(a01, a12) - Times(a02, a11)
    requires b04 == Times(a01, a13) - Times(a03, a11)
    requires b05 == Times(a02, a13) - Times(a03, a12)
    requires b06 == Times(a20, a31) - Times(a21, a30)
    requires b07 == Times(a20, a32) - Times(a22, a30)
    requires b08 == Times(a20, a33) - Times(a23, a30)
    requires b09 == Times(a21, a32) - Times(a22, a31)
    requires b10 == Times(a21, a33) - Times(a23, a31)
    requires b11 == Times(a22, a33) - Times(a23, a32)
    requires d == Times(b00, b11) - Times(b01, b10) + Times(b02, b09) + Times(b03, b08) - Times(b04, b07) + Times(b05, b06)
    requires x0 == Times(a10, b10) - Times(a11, b08) + Times(a13, b06)
    requires x1 == Times(a01, b08) - Times(a00, b10) - Times(a03, b06)
    requires x2 == Times(a30, b04) - Times(a31, b02) + Times(a33, b00)
    requires x3 == Times(a21, b02) - Times(a20, b04) - Times(a23, b00)
    ensures Times(a00, x0) + Times(a10, x1) + Times(a20, x2) + Times(a30, x3) == 0.0
    ensures Times(a01, x0) + Times(a11, x1) + Times(a21, x2) + Times(a31, x3) == 0.0
    ensures Times(a02, x0) + Times(a12, x1) + Times(a22, x2) + Times(a32, x3) == d
    ensures Times(a03, x0) + Times(a13, x1) + Times(a23, x2) + Times(a33, x3) == 0.0
  {
    Minors4Expand2(a00, a01, a02, a03, a10, a11, a12, a13, a20, a21, a22, a23, a30, a31, a32, a33, b00, b01, b02, b03, b04, b05, b06, b07, b08, b09, b10, b11, x0, x1, x2, x3, d);
    Adjugate4Poly02(a00, a01, a02, a03, a10, a11, a12, a13, a20, a21, a22, a23, a30, a31, a32, a33, x0, x1, x2, x3, d);
    Adjugate4Poly12(a00, a01, a02, a03, a10, a11, a12, a13, a20, a21, a22, a23, a30, a31, a32, a33, x0, x1, x2, x3, d);
    Adjugate4Poly22(a00, a01, a02, a03, a10, a11, a12, a13, a20, a21, a22, a23, a30, a31, a32, a33, x0, x1, x2, x3, d);
    Adjugate4Poly32(a00, a01, a02, a03, a10, a11, a12, a13, a20, a21, a22, a23, a30, a31, a32, a33, x0, x1, x2, x3, d);
  }

  lemma Adjugate4Column3(a00: real, a01: real, a02: real, a03: real, a10: real, a11: real,
    a12: real, a13: real, a20: real, a21: real, a22: real, a23: real,
    a30: real, a31: real, a32: real, a33: real, b00: real, b01: real,
    b02: real, b03: real, b04: real, b05: real, b06: real, b07: real,
    b08: real, b09: real, b10: real, b11: real, x0: real, x1: real,
    x2: real, x3: real, d: real)
    requires b00 == Times(a00, a11) - Times(a01, a10)
    requires b01 == Times(a00, a12) - Times(a02, a10)
    requires b02 == Times(a00, a13) - Times(a03, a10)
    requires b03 == Times(a01, a12) - Times(a02, a11)
    requires b04 == Times(a01, a13) - Times(a03, a11)
    requires b05 == Times(a02, a13) - Times(a03, a12)
    requires b06 == Times(a20, a31) - Times(a21, a30)
    requires b07 == Times(a20, a32) - Times(a22, a30)
    requires b08 == Times(a20, a33) - Times(a23, a30)
    requires b09 == Times(a21, a32) - Times(a22, a31)
    requires b10 == Times(a21, a33) - Times(a23, a31)
    requires b11 == Times(a22, a33) - Times(a23, a32)
    requires d == Times(b00, b11) - Times(b01, b10) + Times(b02, b09) + Times(b03, b08) - Times(b04, b07) + Times(b05, b06)
    requires x0 == Times(a11, b07) - Times(a10, b09) - Times(a12, b06)
    requires x1 == Times(a00, b09) - Times(a01, b07) + Times(a02, b06)
    requires x2 == Times(a31, b01) - Times(a30, b03) - Times(a32, b00)
    requires x3 == Times(a20, b03) - Times(a21, b01) + Times(a22, b00)
    ensures Times(a00, x0) + Times(a10, x1) + Times(a20, x2) + Times(a30, x3) == 0.0
    ensures Times(a01, x0) + Times(a11, x1) + Times(a21, x2) + Times(a31, x3) == 0.0
    ensures Times(a02, x0) + Times(a12, x1) + Times(a22, x2) + Times(a32, x3) == 0.0
    ensures Times(a03, x0) + Times(a13, x1) + Times(a23, x2) + Times(a33, x3) == d
  {
    Minors4Expand3(a00, a01, a02, a03, a10, a11, a12, a13, a20, a21, a22, a23, a30, a31, a32, a33, b00, b01, b02, b03, b04, b05, b06, b07, b08, b09, b10, b11, x0, x1, x2, x3, d);
    Adjugate4Poly03(a00, a01, a02, a03, a10, a11, a12, a13, a20, a21, a22, a23, a30, a31, a32, a33, x0, x1, x2, x3, d);
    Adjugate4Poly13(a00, a01, a02, a03, a10, a11, a12, a13, a20, a21, a22, a23, a30, a31, a32, a33, x0, x1, x2, x3, d);
    Adjugate4Poly23(a00, a01, a02, a03, a10, a11, a12, a13, a20, a21, a22, a23, a30, a31, a32, a33, x0, x1, x2, x3, d);
    Adjugate4Poly33(a00, a01, a02, a03, a10, a11, a12, a13, a20, a21, a22, a23, a30, a31, a32, a33, x0, x1, x2, x3, d);
  }

}
