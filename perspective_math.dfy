/// The algebra of the perspective tool: the pivoting 2x2 solver, the
/// unit-square-to-quad mapping and its inverse, and the rectangle builders.
///
/// Every quantity is an exact real; each division of the source is guarded by
/// a precondition (or a definedness predicate) saying its divisor is nonzero.
module PerspectiveMath {
  import opened Vectors

  function Abs(r: real): real { if r < 0.0 then -r else r }

  function Det2(a11: real, a12: real, a21: real, a22: real): real { a11 * a22 - a12 * a21 }

  // ---------------------------------------------------------------------------
  // Solve2x2
  // ---------------------------------------------------------------------------

  /// The pivot row is the equation whose first coefficient is larger in magnitude.
  predicate SwapRows(a11: real, a21: real) { Abs(a11) < Abs(a21) }

  /// With a nonzero determinant the pivot chosen by the row swap is nonzero:
  /// a zero pivot would make the whole first column zero.
  lemma PivotNonzero(a11: real, a12: real, a21: real, a22: real)
    requires Det2(a11, a12, a21, a22) != 0.0
    ensures SwapRows(a11, a21) ==> a21 != 0.0
    ensures !SwapRows(a11, a21) ==> a11 != 0.0
  {
  }

  /// The coefficients a11, a12, a21, a22 and right-hand sides b1, b2 of a 2x2 system.
  datatype System = System(a11: real, a12: real, a21: real, a22: real, b1: real, b2: real)

  /// Solves a11*x1 + a12*x2 = b1, a21*x1 + a22*x2 = b2 by row pivoting, an LU
  /// factorisation, forward and then backward substitution.
  function Solve2x2(a11: real, a12: real, a21: real, a22: real, b1: real, b2: real): (x: (real, real))
    requires Det2(a11, a12, a21, a22) != 0.0
    ensures a11 * x.0 + a12 * x.1 == b1
    ensures a21 * x.0 + a22 * x.1 == b2
  {
    PivotNonzero(a11, a12, a21, a22);
    assert Det2(a21, a22, a11, a12) == -Det2(a11, a12, a21, a22);
    // Simple pivoting
    var p := if SwapRows(a11, a21) then System(a21, a22, a11, a12, b2, b1)
             else System(a11, a12, a21, a22, b1, b2);
    SolvePivoted(p.a11, p.a12, p.a21, p.a22, p.b1, p.b2)
  }

  /// The solver after the row swap: LU decomposition with the pivot p11, then
  /// forward and backward substitution.
  function SolvePivoted(p11: real, p12: real, p21: real, p22: real, q1: real, q2: real): (x: (real, real))
    requires p11 != 0.0 && Det2(p11, p12, p21, p22) != 0.0
    ensures p11 * x.0 + p12 * x.1 == q1
    ensures p21 * x.0 + p22 * x.1 == q2
  {
    // LU decomposition
    var l21 := p21 / p11;
    var u22 := p22 - l21 * p12;
    assert u22 * p11 == Det2(p11, p12, p21, p22);
    // forward substitution
    var z1 := q1;
    var z2 := q2 - l21 * z1;
    // backward substitution
    var x2 := z2 / u22;
    var x1 := (z1 - p12 * x2) / p11;
    SolveSteps(p11, p12, p21, p22, q1, q2, l21, u22, x1, x2);
    (x1, x2)
  }

  /// The substitution steps solve the pivoted system.
  lemma SolveSteps(p11: real, p12: real, p21: real, p22: real, q1: real, q2: real,
                   l21: real, u22: real, x1: real, x2: real)
    requires p11 != 0.0 && u22 != 0.0
    requires l21 == p21 / p11 && u22 == p22 - l21 * p12
    requires x2 == (q2 - l21 * q1) / u22 && x1 == (q1 - p12 * x2) / p11
    ensures p11 * x1 + p12 * x2 == q1
    ensures p21 * x1 + p22 * x2 == q2
  {
    assert p11 * x1 == q1 - p12 * x2;
    assert u22 * x2 == q2 - l21 * q1;
    assert l21 * p11 == p21;
    calc {
      p21 * x1 + p22 * x2;
      l21 * (p11 * x1) + p22 * x2;
      l21 * (q1 - p12 * x2) + p22 * x2;
      l21 * q1 + u22 * x2;
      q2;
    }
  }

  /// A regular homogeneous system has only the zero solution.
  lemma HomogeneousOnlyZero(a11: real, a12: real, a21: real, a22: real, d1: real, d2: real)
    requires Det2(a11, a12, a21, a22) != 0.0
    requires a11 * d1 + a12 * d2 == 0.0 && a21 * d1 + a22 * d2 == 0.0
    ensures d1 == 0.0 && d2 == 0.0
  {
    var det := Det2(a11, a12, a21, a22);
    assert det * d1 == a22 * (a11 * d1 + a12 * d2) - a12 * (a21 * d1 + a22 * d2);
    assert det * d2 == a11 * (a21 * d1 + a22 * d2) - a21 * (a11 * d1 + a12 * d2);
  }

  lemma RowDifference(a1: real, a2: real, x1: real, x2: real, s1: real, s2: real, b: real)
    requires a1 * x1 + a2 * x2 == b && a1 * s1 + a2 * s2 == b
    ensures a1 * (x1 - s1) + a2 * (x2 - s2) == 0.0
  {
  }

  /// Cramer's rule: the solver's result times the determinant.
  lemma Solve2x2Cramer(a11: real, a12: real, a21: real, a22: real, b1: real, b2: real)
    requires Det2(a11, a12, a21, a22) != 0.0
    ensures var x := Solve2x2(a11, a12, a21, a22, b1, b2);
      && x.0 * Det2(a11, a12, a21, a22) == b1 * a22 - a12 * b2
      && x.1 * Det2(a11, a12, a21, a22) == a11 * b2 - b1 * a21
  {
    var x := Solve2x2(a11, a12, a21, a22, b1, b2);
    CramerFromSystem(a11, a12, a21, a22, b1, b2, x.0, x.1);
  }

  /// Cramer's rule for any solution of the system.
  lemma CramerFromSystem(a11: real, a12: real, a21: real, a22: real, b1: real, b2: real, x1: real, x2: real)
    requires a11 * x1 + a12 * x2 == b1 && a21 * x1 + a22 * x2 == b2
    ensures x1 * Det2(a11, a12, a21, a22) == b1 * a22 - a12 * b2
    ensures x2 * Det2(a11, a12, a21, a22) == a11 * b2 - b1 * a21
  {
    assert x1 * Det2(a11, a12, a21, a22) == a22 * (a11 * x1 + a12 * x2) - a12 * (a21 * x1 + a22 * x2);
    assert x2 * Det2(a11, a12, a21, a22) == a11 * (a21 * x1 + a22 * x2) - a21 * (a11 * x1 + a12 * x2);
  }

  /// A regular system has exactly one solution, the solver's.
  lemma Solve2x2Unique(a11: real, a12: real, a21: real, a22: real, b1: real, b2: real, x1: real, x2: real)
    requires Det2(a11, a12, a21, a22) != 0.0
    ensures (a11 * x1 + a12 * x2 == b1 && a21 * x1 + a22 * x2 == b2)
            <==> (x1, x2) == Solve2x2(a11, a12, a21, a22, b1, b2)
  {
    SolutionsAgree(a11, a12, a21, a22, b1, b2, x1, x2, Solve2x2(a11, a12, a21, a22, b1, b2));
  }

  /// Given one solution s of a regular system, x solves it iff x is s.
  lemma SolutionsAgree(a11: real, a12: real, a21: real, a22: real, b1: real, b2: real,
                       x1: real, x2: real, s: (real, real))
    requires Det2(a11, a12, a21, a22) != 0.0
    requires a11 * s.0 + a12 * s.1 == b1 && a21 * s.0 + a22 * s.1 == b2
    ensures (a11 * x1 + a12 * x2 == b1 && a21 * x1 + a22 * x2 == b2) <==> (x1, x2) == s
  {
    if a11 * x1 + a12 * x2 == b1 && a21 * x1 + a22 * x2 == b2 {
      RowDifference(a11, a12, x1, x2, s.0, s.1, b1);
      RowDifference(a21, a22, x1, x2, s.0, s.1, b2);
      HomogeneousOnlyZero(a11, a12, a21, a22, x1 - s.0, x2 - s.1);
    }
  }

  // ---------------------------------------------------------------------------
  // Quad parameterisation
  // ---------------------------------------------------------------------------

  /// A quad as its first corner (x1, y1) and the other three corners relative
  /// to it, the out-parameters of the source's unwrapping helper.
  datatype QuadRel = QuadRel(x1: real, x2: real, x3: real, x4: real, y1: real, y2: real, y3: real, y4: real)

  /// Re-expresses a quad relative to its first corner.
  function UnwrapQuadRel(quad: Quad): (r: QuadRel)
    ensures Rewrap(r) == quad
  {
    var x1 := quad[0].x;
    var y1 := quad[0].y;
    QuadRel(x1, quad[1].x - x1, quad[2].x - x1, quad[3].x - x1,
            y1, quad[1].y - y1, quad[2].y - y1, quad[3].y - y1)
  }

  /// The quad whose first corner and relative corners are given.
  function Rewrap(r: QuadRel): Quad
  {
    [Vec2(r.x1, r.y1), Vec2(r.x1 + r.x2, r.y1 + r.y2), Vec2(r.x1 + r.x3, r.y1 + r.y3), Vec2(r.x1 + r.x4, r.y1 + r.y4)]
  }

  // The formulas below work on the relative corners (x2, y2), (x3, y3),
  // (x4, y4) as plain numbers, exactly as the source writes them.

  /// The denominator d of the projective map from the unit square onto the
  /// quad, at the quad-relative coordinates (u, v).
  function UVDenominatorRel(x2: real, x3: real, x4: real, y2: real, y3: real, y4: real, u: real, v: real): real
  {
    x4*((-1.0 + u + v)*y2 + y3 - v*y3) + x3*(y2 - u*y2 + (-1.0 + v)*y4) + x2*((-1.0 + u)*y3 - (-1.0 + u + v)*y4)
  }

  /// The numerator of the x coordinate of the point at (u, v).
  function UVNumeratorXRel(x2: real, x3: real, x4: real, y2: real, y3: real, y4: real, u: real, v: real): real
  {
    v*x4*(x3*y2 - x2*y3) + u*x2*(x4*y3 - x3*y4)
  }

  /// The numerator of the y coordinate of the point at (u, v).
  function UVNumeratorYRel(x2: real, x3: real, x4: real, y2: real, y3: real, y4: real, u: real, v: real): real
  {
    v*y4*(x3*y2 - x2*y3) + u*y2*(x4*y3 - x3*y4)
  }

  /// The point at (u, v), relative to the first corner.
  function UVToXYRel(x2: real, x3: real, x4: real, y2: real, y3: real, y4: real, u: real, v: real): Vec2
    requires UVDenominatorRel(x2, x3, x4, y2, y3, y4, u, v) != 0.0
  {
    var d := UVDenominatorRel(x2, x3, x4, y2, y3, y4, u, v);
    Vec2(UVNumeratorXRel(x2, x3, x4, y2, y3, y4, u, v) / d, UVNumeratorYRel(x2, x3, x4, y2, y3, y4, u, v) / d)
  }

  /// The denominator of the u coordinate of the inverse map, at the point
  /// (x, y) relative to the first corner.
  function XYDenominatorURel(x2: real, x3: real, x4: real, y2: real, y3: real, y4: real, x: real, y: real): real
  {
    x3*x3*(x4*y2*y2*(-y + y4) + y4*(x*y2*(y2 - y4) + x2*(y - y2)*y4)) + x3*(x4*x4*y2*y2*(y - y3) + 2.0*x4*(x2*y*y3*(y2 - y4) + x*y2*(-y2 + y3)*y4) + x2*y4*(x2*(-y + y3)*y4 + 2.0*x*y2*(-y3 + y4))) + y3*(x*x4*x4*y2*(y2 - y3) + x2*x4*x4*(y2*y3 + y*(-2.0*y2 + y3)) - x2*x2*(x4*y*(y3 - 2.0*y4) + x4*y3*y4 + x*y4*(-y3 + y4)))
  }

  /// The denominator of the v coordinate of the inverse map.
  function XYDenominatorVRel(x2: real, x3: real, x4: real, y2: real, y3: real, y4: real, x: real, y: real): real
  {
    x3*(x4*x4*y2*y2*(-y + y3) + x2*y4*(2.0*x*y2*(y3 - y4) + x2*(y - y3)*y4) - 2.0*x4*(x2*y*y3*(y2 - y4) + x*y2*(-y2 + y3)*y4)) + x3*x3*(x4*y2*y2*(y - y4) + y4*(x2*(-y + y2)*y4 + x*y2*(-y2 + y4))) + y3*(x*x4*x4*y2*(-y2 + y3) + x2*x4*x4*(2.0*y*y2 - y*y3 - y2*y3) + x2*x2*(x4*y*(y3 - 2.0*y4) + x4*y3*y4 + x*y4*(-y3 + y4)))
  }

  predicate XYToUVRelDefined(x2: real, x3: real, x4: real, y2: real, y3: real, y4: real, x: real, y: real)
  {
    XYDenominatorURel(x2, x3, x4, y2, y3, y4, x, y) != 0.0 && XYDenominatorVRel(x2, x3, x4, y2, y3, y4, x, y) != 0.0
  }

  /// The numerator of the u coordinate of the inverse map.
  function XYNumeratorURel(x2: real, x3: real, x4: real, y2: real, y3: real, y4: real, x: real, y: real): real
  {
    (x3*y2 - x2*y3)*(x4*y - x*y4)*(x4*(-y2 + y3) + x3*(y2 - y4) + x2*(-y3 + y4))
  }

  /// The numerator of the v coordinate of the inverse map.
  function XYNumeratorVRel(x2: real, x3: real, x4: real, y2: real, y3: real, y4: real, x: real, y: real): real
  {
    (x2*y - x*y2)*(x4*y3 - x3*y4)*(x4*(y2 - y3) + x2*(y3 - y4) + x3*(-y2 + y4))
  }

  /// The quad-relative coordinates of the point (x, y) relative to the first corner.
  function XYToUVRel(x2: real, x3: real, x4: real, y2: real, y3: real, y4: real, x: real, y: real): Vec2
    requires XYToUVRelDefined(x2, x3, x4, y2, y3, y4, x, y)
  {
    var u := -(XYNumeratorURel(x2, x3, x4, y2, y3, y4, x, y) / XYDenominatorURel(x2, x3, x4, y2, y3, y4, x, y));
    var v := XYNumeratorVRel(x2, x3, x4, y2, y3, y4, x, y) / XYDenominatorVRel(x2, x3, x4, y2, y3, y4, x, y);
    Vec2(u, v)
  }

  function UVDenominator(quad: Quad, uv: Vec2): real
  {
    var r := UnwrapQuadRel(quad);
    UVDenominatorRel(r.x2, r.x3, r.x4, r.y2, r.y3, r.y4, uv.x, uv.y)
  }

  /// The point of `quad` with quad-relative coordinates `uv`: the unit square
  /// is mapped onto the quad by a projective transformation.
  function UVToXY(quad: Quad, uv: Vec2): Vec2
    requires UVDenominator(quad, uv) != 0.0
  {
    var r := UnwrapQuadRel(quad);
    var p := UVToXYRel(r.x2, r.x3, r.x4, r.y2, r.y3, r.y4, uv.x, uv.y);
    Vec2(p.x + r.x1, p.y + r.y1)
  }

  /// Neither denominator of the inverse map vanishes at `xy`.
  predicate XYToUVDefined(quad: Quad, xy: Vec2)
  {
    var r := UnwrapQuadRel(quad);
    XYToUVRelDefined(r.x2, r.x3, r.x4, r.y2, r.y3, r.y4, xy.x - r.x1, xy.y - r.y1)
  }

  /// The quad-relative coordinates of the point `xy`.
  function XYToUV(quad: Quad, xy: Vec2): Vec2
    requires XYToUVDefined(quad, xy)
  {
    var r := UnwrapQuadRel(quad);
    XYToUVRel(r.x2, r.x3, r.x4, r.y2, r.y3, r.y4, xy.x - r.x1, xy.y - r.y1)
  }

  /// The signed areas spanned by four triples of corners.  Relative to the
  /// first corner they are x3*y2 - x2*y3, x4*y3 - x3*y4 and x4*y2 - x2*y4, the
  /// products the formulas above are built from.
  function AreaA(quad: Quad): real { Orient(quad[0], quad[2], quad[1]) }
  function AreaB(quad: Quad): real { Orient(quad[0], quad[3], quad[2]) }
  function AreaC(quad: Quad): real { Orient(quad[0], quad[3], quad[1]) }
  function AreaE(quad: Quad): real { Orient(quad[1], quad[3], quad[2]) }

  /// No three corners of the quad lie on one line.
  predicate NoThreeCollinear(quad: Quad)
  {
    AreaA(quad) != 0.0 && AreaB(quad) != 0.0 && AreaC(quad) != 0.0 && AreaE(quad) != 0.0
  }

  // ---------------------------------------------------------------------------
  // Rectangles
  // ---------------------------------------------------------------------------

  /// The axis-parallel rectangle with opposite corners a and b, in quad order.
  function MakeRect(a: Vec2, b: Vec2): (r: Quad)
    ensures r[0] == a && r[2] == b
    ensures r[1] == Vec2(b.x, a.y) && r[3] == Vec2(a.x, b.y)
  {
    [Vec2(a.x, a.y), Vec2(b.x, a.y), Vec2(b.x, b.y), Vec2(a.x, b.y)]
  }

  /// The positions of the first four features of a list.
  function FeaturePositions(features: seq<Vec2>): (r: Quad)
    requires |features| >= 4
    ensures forall i :: 0 <= i < 4 ==> r[i] == features[i]
  {
    features[..4]
  }

  /// The unit square, whose corners UVToXY sends to the quad's corners.
  const UnitSquare: Quad := MakeRect(Vec2(0.0, 0.0), Vec2(1.0, 1.0))
}
