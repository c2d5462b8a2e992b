/// The algebra behind the quad mapping, on plain numbers.
///
/// With the first corner of a quad at the origin and the other corners at
/// (x2, y2), (x3, y3), (x4, y4), write
///
///   a = x3*y2 - x2*y3,  b = x4*y3 - x3*y4,  c = x4*y2 - x2*y4,  e = a + b - c
///
/// (twice the signed areas of the corner triples 1-3-2, 1-4-3, 1-4-2 and
/// 2-4-3), and for a point p = (x, y)
///
///   c4 = x4*y - x*y4,  c2 = x2*y - x*y2,  s = a*c4,  t = b*c2,  k = a*b*c.
///
/// The forward map from quad-relative coordinates (u, v) to p and the inverse
/// map are then
///
///   d = u*(c - a) + v*(c - b) + e,     d*p = v*a*P4 + u*b*P2
///   D = k - (c - a)*s + (c - b)*t,     D*u = e*s,  D*v = -e*t
///
/// The lemmas here bring the expanded formulas into that form and prove that
/// the two maps undo each other.  The intermediate quantities are passed in
/// as numbers together with their definitions, so that every step is a small
/// polynomial identity.
module QuadAlgebra {

  // ---------------------------------------------------------------------------
  // Field facts
  // ---------------------------------------------------------------------------

  /// Division undone.
  lemma Undivide(n: real, den: real, q: real)
    requires den != 0.0 && q == n / den
    ensures q * den == n
  {
  }

  /// Two numbers whose products with the same nonzero factor agree are equal.
  lemma CancelVia(p: real, q: real, k: real, s: real)
    requires k != 0.0 && k * p == s && k * q == s
    ensures p == q
  {
    assert k * (p - q) == 0.0;
  }

  /// Equals multiplied by the same factor are equal.
  lemma MulEq(p: real, q: real, k: real)
    requires p == q
    ensures p * k == q * k
  {
  }

  /// A factor of a nonzero product is nonzero.
  lemma NonzeroFactor(p: real, q: real, r: real)
    requires p * q == r && r != 0.0
    ensures p != 0.0
  {
  }

  /// A product is zero only if one of its factors is.
  lemma ZeroProduct(p: real, q: real)
    requires p * q == 0.0
    ensures p == 0.0 || q == 0.0
  {
  }

  /// k*e is nonzero for k = a*b*c when a, b, c and e are.
  lemma NonzeroScale(a: real, b: real, c: real, k: real, e: real)
    requires a != 0.0 && b != 0.0 && c != 0.0 && e != 0.0 && k == a * b * c
    ensures k * e != 0.0
  {
    if k * e == 0.0 {
      ZeroProduct(k, e);
      ZeroProduct(a * b, c);
      ZeroProduct(a, b);
      assert false;
    }
  }

  /// Negating one factor and the other's negation leaves the product unchanged.
  lemma NegatedFactors(w: real, du: real, dd: real)
    requires du == -dd
    ensures (-w) * du == dd * w
  {
  }

  /// Swapping the factors of a product and replacing one by an equal number.
  lemma SwappedFactors(w: real, dv: real, dd: real)
    requires dv == dd
    ensures w * dv == dd * w
  {
  }

  // ---------------------------------------------------------------------------
  // The expanded formulas in closed form
  // ---------------------------------------------------------------------------

  /// The forward denominator is d = u*(c - a) + v*(c - b) + e.
  lemma ForwardDenominator(x2: real, x3: real, x4: real, y2: real, y3: real, y4: real,
                           a: real, b: real, c: real, u: real, v: real, d: real)
    requires a == x3*y2 - x2*y3 && b == x4*y3 - x3*y4 && c == x4*y2 - x2*y4
    requires d == x4*((-1.0 + u + v)*y2 + y3 - v*y3) + x3*(y2 - u*y2 + (-1.0 + v)*y4) + x2*((-1.0 + u)*y3 - (-1.0 + u + v)*y4)
    ensures d == u * (c - a) + v * (c - b) + (a + b - c)
  {
  }

  /// A forward numerator is v*a*z4 + u*b*z2, for the coordinate z of the
  /// corners 2 and 4 (x or y).
  lemma ForwardNumerator(x2: real, x3: real, x4: real, y2: real, y3: real, y4: real, z2: real, z4: real,
                         a: real, b: real, u: real, v: real, d: real, n: real, pz: real)
    requires a == x3*y2 - x2*y3 && b == x4*y3 - x3*y4
    requires n == v*z4*(x3*y2 - x2*y3) + u*z2*(x4*y3 - x3*y4)
    requires d != 0.0 && pz == n / d
    ensures d * pz == v * a * z4 + u * b * z2
  {
    Undivide(n, d, pz);
  }

  /// The two denominators of the inverse map are -D and D.
  lemma InverseDenominators(x2: real, x3: real, x4: real, y2: real, y3: real, y4: real, x: real, y: real,
                            a: real, b: real, c: real, c4: real, c2: real, k: real, s: real, t: real,
                            dd: real, du: real, dv: real)
    requires a == x3*y2 - x2*y3 && b == x4*y3 - x3*y4 && c == x4*y2 - x2*y4
    requires c4 == x4 * y - x * y4 && c2 == x2 * y - x * y2
    requires k == a * b * c && s == a * c4 && t == b * c2
    requires dd == k - (c - a) * s + (c - b) * t
    requires du == x3*x3*(x4*y2*y2*(-y + y4) + y4*(x*y2*(y2 - y4) + x2*(y - y2)*y4)) + x3*(x4*x4*y2*y2*(y - y3) + 2.0*x4*(x2*y*y3*(y2 - y4) + x*y2*(-y2 + y3)*y4) + x2*y4*(x2*(-y + y3)*y4 + 2.0*x*y2*(-y3 + y4))) + y3*(x*x4*x4*y2*(y2 - y3) + x2*x4*x4*(y2*y3 + y*(-2.0*y2 + y3)) - x2*x2*(x4*y*(y3 - 2.0*y4) + x4*y3*y4 + x*y4*(-y3 + y4)))
    requires dv == x3*(x4*x4*y2*y2*(-y + y3) + x2*y4*(2.0*x*y2*(y3 - y4) + x2*(y - y3)*y4) - 2.0*x4*(x2*y*y3*(y2 - y4) + x*y2*(-y2 + y3)*y4)) + x3*x3*(x4*y2*y2*(y - y4) + y4*(x2*(-y + y2)*y4 + x*y2*(-y2 + y4))) + y3*(x*x4*x4*y2*(-y2 + y3) + x2*x4*x4*(2.0*y*y2 - y*y3 - y2*y3) + x2*x2*(x4*y*(y3 - 2.0*y4) + x4*y3*y4 + x*y4*(-y3 + y4)))
    ensures du == -dd && dv == dd
  {
  }

  /// The numerator of the u coordinate of the inverse map is e*s.
  lemma NumeratorU(x2: real, x3: real, x4: real, y2: real, y3: real, y4: real, x: real, y: real,
                   a: real, b: real, c: real, c4: real, s: real, n: real)
    requires a == x3*y2 - x2*y3 && b == x4*y3 - x3*y4 && c == x4*y2 - x2*y4
    requires c4 == x4 * y - x * y4 && s == a * c4
    requires n == (x3*y2 - x2*y3)*(x4*y - x*y4)*(x4*(-y2 + y3) + x3*(y2 - y4) + x2*(-y3 + y4))
    ensures n == (a + b - c) * s
  {
  }

  /// The numerator of the v coordinate of the inverse map is -e*t.
  lemma NumeratorV(x2: real, x3: real, x4: real, y2: real, y3: real, y4: real, x: real, y: real,
                   a: real, b: real, c: real, c2: real, t: real, n: real)
    requires a == x3*y2 - x2*y3 && b == x4*y3 - x3*y4 && c == x4*y2 - x2*y4
    requires c2 == x2 * y - x * y2 && t == b * c2
    requires n == (x2*y - x*y2)*(x4*y3 - x3*y4)*(x4*(y2 - y3) + x2*(y3 - y4) + x3*(-y2 + y4))
    ensures n == -(a + b - c) * t
  {
  }

  /// The u coordinate of the inverse map, -(nu/du), times D is e*s.
  lemma QuotientU(nu: real, du: real, dd: real, e: real, s: real, w: real)
    requires du == -dd && du != 0.0 && nu == e * s && w == -(nu / du)
    ensures dd * w == e * s
  {
    Undivide(nu, du, -w);
  }

  /// The v coordinate of the inverse map, nv/dv, times D is -e*t.
  lemma QuotientV(nv: real, dv: real, dd: real, e: real, t: real, w: real)
    requires dv == dd && dv != 0.0 && nv == -e * t && w == nv / dv
    ensures dd * w == -e * t
  {
    Undivide(nv, dv, w);
  }

  // ---------------------------------------------------------------------------
  // Inverse after forward
  // ---------------------------------------------------------------------------

  /// The product s = a*c4 at the image p of (u, v), scaled by d.
  lemma ImageCross4(x2: real, x4: real, y2: real, y4: real, a: real, b: real, c: real,
                    c4: real, u: real, v: real, d: real, px: real, py: real)
    requires c == x4*y2 - x2*y4 && c4 == x4 * py - px * y4
    requires d * px == v * a * x4 + u * b * x2 && d * py == v * a * y4 + u * b * y2
    ensures d * (a * c4) == u * (a * b * c)
  {
    assert d * c4 == x4 * (d * py) - (d * px) * y4;
    MulEq(d * c4, u * b * c, a);
  }

  /// The product t = b*c2 at the image p of (u, v), scaled by d.
  lemma ImageCross2(x2: real, x4: real, y2: real, y4: real, a: real, b: real, c: real,
                    c2: real, u: real, v: real, d: real, px: real, py: real)
    requires c == x4*y2 - x2*y4 && c2 == x2 * py - px * y2
    requires d * px == v * a * x4 + u * b * x2 && d * py == v * a * y4 + u * b * y2
    ensures d * (b * c2) == -v * (a * b * c)
  {
    assert d * c2 == x2 * (d * py) - (d * px) * y2;
    MulEq(d * c2, -v * a * c, b);
  }

  /// At the image of (u, v) the inverse denominator D is nonzero and (u, v)
  /// satisfies the inverse closed form.
  lemma ImageInverse(k: real, s: real, t: real, ca: real, cb: real, e: real, u: real, v: real, d: real, dd: real)
    requires dd == k - ca * s + cb * t
    requires d == u * ca + v * cb + e && d != 0.0
    requires d * s == u * k && d * t == -v * k
    requires k * e != 0.0
    ensures dd != 0.0 && dd * u == e * s && dd * v == -e * t
  {
    assert dd * d == k * e by {
      assert dd * d == k * d - ca * (d * s) + cb * (d * t);
    }
    MulEq(dd * d, k * e, u);
    MulEq(d * s, u * k, e);
    CancelVia(dd * u, e * s, d, (k * e) * u);
    MulEq(dd * d, k * e, v);
    MulEq(d * t, -v * k, e);
    CancelVia(dd * v, -e * t, d, (k * e) * v);
  }

  // ---------------------------------------------------------------------------
  // Forward after inverse
  // ---------------------------------------------------------------------------

  /// At a pair (u, v) satisfying the inverse closed form the forward
  /// denominator d is nonzero, and d*D = k*e.
  lemma PreimageForward(k: real, s: real, t: real, ca: real, cb: real, e: real, u: real, v: real, d: real, dd: real)
    requires dd == k - ca * s + cb * t && dd != 0.0
    requires dd * u == e * s && dd * v == -e * t
    requires d == u * ca + v * cb + e
    requires k * e != 0.0
    ensures d != 0.0 && d * dd == k * e
  {
    PreimageDenominator(k, s, t, ca, cb, e, u, v, d, dd);
    NonzeroFactor(d, dd, k * e);
  }

  /// d*D = k*e at a pair (u, v) satisfying the inverse closed form.
  lemma PreimageDenominator(k: real, s: real, t: real, ca: real, cb: real, e: real, u: real, v: real, d: real, dd: real)
    requires dd == k - ca * s + cb * t
    requires dd * u == e * s && dd * v == -e * t
    requires d == u * ca + v * cb + e
    ensures d * dd == k * e
  {
    assert d * dd == ca * (dd * u) + cb * (dd * v) + e * dd;
  }

  /// The forward numerators at such a pair, scaled by D, for one coordinate z
  /// of the point.
  lemma PreimageScaled(a: real, b: real, c: real, c4: real, c2: real, s: real, t: real, k: real,
                       z2: real, z4: real, z: real, u: real, v: real, e: real, d: real, dd: real)
    requires z2 * c4 - z4 * c2 == z * c
    requires s == a * c4 && t == b * c2 && k == a * b * c
    requires dd * u == e * s && dd * v == -e * t
    requires d * dd == k * e
    ensures dd * (v * a * z4 + u * b * z2) == dd * (d * z)
  {
    PreimageNumerator(a, b, c, c4, c2, s, t, k, z2, z4, z, u, v, e, dd);
    MulEq(d * dd, k * e, z);
    assert dd * (d * z) == (d * dd) * z;
  }

  /// The forward numerator at such a pair, scaled by D, is k*e*z.
  lemma PreimageNumerator(a: real, b: real, c: real, c4: real, c2: real, s: real, t: real, k: real,
                          z2: real, z4: real, z: real, u: real, v: real, e: real, dd: real)
    requires z2 * c4 - z4 * c2 == z * c
    requires s == a * c4 && t == b * c2 && k == a * b * c
    requires dd * u == e * s && dd * v == -e * t
    ensures dd * (v * a * z4 + u * b * z2) == (k * e) * z
  {
    MulEq(dd * v, -e * t, a * z4);
    MulEq(dd * u, e * s, b * z2);
    MulEq(z2 * c4 - z4 * c2, z * c, e * a * b);
  }

  /// One coordinate z of the point satisfies the forward closed form.
  lemma PreimageCoordinate(a: real, b: real, c: real, c4: real, c2: real, s: real, t: real, k: real,
                           z2: real, z4: real, z: real, u: real, v: real, e: real, d: real, dd: real)
    requires z2 * c4 - z4 * c2 == z * c
    requires s == a * c4 && t == b * c2 && k == a * b * c
    requires dd * u == e * s && dd * v == -e * t
    requires d * dd == k * e && dd != 0.0
    ensures d * z == v * a * z4 + u * b * z2
  {
    PreimageScaled(a, b, c, c4, c2, s, t, k, z2, z4, z, u, v, e, d, dd);
    CancelVia(d * z, v * a * z4 + u * b * z2, dd, dd * (d * z));
  }

  /// The point (x, y) satisfies the forward closed form at its preimage.
  lemma PreimagePoint(x2: real, x4: real, y2: real, y4: real, a: real, b: real, c: real,
                      c4: real, c2: real, s: real, t: real, k: real, x: real, y: real,
                      u: real, v: real, e: real, d: real, dd: real)
    requires c == x4*y2 - x2*y4 && c4 == x4 * y - x * y4 && c2 == x2 * y - x * y2
    requires s == a * c4 && t == b * c2 && k == a * b * c
    requires dd * u == e * s && dd * v == -e * t
    requires d * dd == k * e && dd != 0.0
    ensures d * x == v * a * x4 + u * b * x2 && d * y == v * a * y4 + u * b * y2
  {
    assert x2 * c4 - x4 * c2 == x * c;
    PreimageCoordinate(a, b, c, c4, c2, s, t, k, x2, x4, x, u, v, e, d, dd);
    assert y2 * c4 - y4 * c2 == y * c;
    PreimageCoordinate(a, b, c, c4, c2, s, t, k, y2, y4, y, u, v, e, d, dd);
  }

  // ---------------------------------------------------------------------------
  // Corners
  // ---------------------------------------------------------------------------

  // At the corners (0, 0), (1, 0), (1, 1), (0, 1) of the unit square the
  // forward denominator is e, b, c and a, and the forward closed form picks
  // out the first, second, third and fourth corner of the quad.

  lemma CornerDenominators(a: real, b: real, c: real, d1: real, d2: real, d3: real, d4: real)
    requires a != 0.0 && b != 0.0 && c != 0.0 && a + b - c != 0.0
    requires d1 == 0.0 * (c - a) + 0.0 * (c - b) + (a + b - c)
    requires d2 == 1.0 * (c - a) + 0.0 * (c - b) + (a + b - c)
    requires d3 == 1.0 * (c - a) + 1.0 * (c - b) + (a + b - c)
    requires d4 == 0.0 * (c - a) + 1.0 * (c - b) + (a + b - c)
    ensures d1 == a + b - c && d2 == b && d3 == c && d4 == a
    ensures d1 != 0.0 && d2 != 0.0 && d3 != 0.0 && d4 != 0.0
  {
  }

  lemma CornerFirst(x2: real, x4: real, y2: real, y4: real, a: real, b: real, d: real, px: real, py: real)
    requires d != 0.0
    requires d * px == 0.0 * a * x4 + 0.0 * b * x2 && d * py == 0.0 * a * y4 + 0.0 * b * y2
    ensures px == 0.0 && py == 0.0
  {
    CancelVia(px, 0.0, d, 0.0);
    CancelVia(py, 0.0, d, 0.0);
  }

  lemma CornerSecond(x2: real, x4: real, y2: real, y4: real, a: real, b: real, d: real, px: real, py: real)
    requires d == b && d != 0.0
    requires d * px == 0.0 * a * x4 + 1.0 * b * x2 && d * py == 0.0 * a * y4 + 1.0 * b * y2
    ensures px == x2 && py == y2
  {
    CancelVia(px, x2, d, b * x2);
    CancelVia(py, y2, d, b * y2);
  }

  lemma CornerThird(x2: real, x3: real, x4: real, y2: real, y3: real, y4: real, a: real, b: real, c: real,
                    d: real, px: real, py: real)
    requires a == x3*y2 - x2*y3 && b == x4*y3 - x3*y4 && c == x4*y2 - x2*y4
    requires d == c && d != 0.0
    requires d * px == 1.0 * a * x4 + 1.0 * b * x2 && d * py == 1.0 * a * y4 + 1.0 * b * y2
    ensures px == x3 && py == y3
  {
    CornerThirdNumerators(x2, x3, x4, y2, y3, y4, a, b, c);
    CancelVia(px, x3, d, c * x3);
    CancelVia(py, y3, d, c * y3);
  }

  /// The forward numerators at (1, 1) are c*P3.
  lemma CornerThirdNumerators(x2: real, x3: real, x4: real, y2: real, y3: real, y4: real, a: real, b: real, c: real)
    requires a == x3*y2 - x2*y3 && b == x4*y3 - x3*y4 && c == x4*y2 - x2*y4
    ensures 1.0 * a * x4 + 1.0 * b * x2 == c * x3 && 1.0 * a * y4 + 1.0 * b * y2 == c * y3
  {
  }

  lemma CornerFourth(x2: real, x4: real, y2: real, y4: real, a: real, b: real, d: real, px: real, py: real)
    requires d == a && d != 0.0
    requires d * px == 1.0 * a * x4 + 0.0 * b * x2 && d * py == 1.0 * a * y4 + 0.0 * b * y2
    ensures px == x4 && py == y4
  {
    CancelVia(px, x4, d, a * x4);
    CancelVia(py, y4, d, a * y4);
  }
}
