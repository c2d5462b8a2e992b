/// The algebraic first half of the inverse solver: from the inner quad to a
/// parallelogram in space that projects onto it.
///
/// The solver normalises the quad to the crossing of its diagonals, solves
/// a second 2x2 system for depth factors z2 and z4 of the second and fourth
/// corner, and lifts the four corners onto their lines of sight at those
/// depths, scaled so that the factors average to one.  The rotation angles,
/// shear and scale it then reads off that parallelogram need the arc tangent
/// and are not part of this model.
module InverseSolver {
  import opened Vectors
  import opened PerspectiveMath
  import opened Diagonals
  import opened TextProjection

  /// The four lifted corners, with the crossing of the diagonals they were
  /// normalised to and the depth factors of the second and fourth corner.
  datatype SpatialQuad = SpatialQuad(center: Vec2, z2: real, z4: real, r1: Vec3, r2: Vec3, r3: Vec3, r4: Vec3)

  /// The quad moved so that its diagonals cross at the origin.
  function Normalized(q: Quad): Quad
    requires DiagonalDet(q) != 0.0
  {
    var c := DiagonalCenter(q);
    [Sub(q[0], c), Sub(q[1], c), Sub(q[2], c), Sub(q[3], c)]
  }

  /// The depth factors' system: z2*side1 + z4*side2 = -diag1 with the sides
  /// from the third corner to the second and to the fourth.
  function DepthSystem(q: Quad): (real, real, real, real, real, real)
    requires DiagonalDet(q) != 0.0
  {
    var n := Normalized(q);
    var side1 := Sub(n[1], n[2]);
    var side2 := Sub(n[3], n[2]);
    (side1.x, side2.x, side1.y, side2.y, -Diag1(q).x, -Diag1(q).y)
  }

  /// Neither system is singular.
  predicate DepthSolvable(q: Quad)
  {
    DiagonalDet(q) != 0.0 && var s := DepthSystem(q); Det2(s.0, s.1, s.2, s.3) != 0.0
  }

  /// The depth factors of the second and fourth corner, which keep the
  /// normalised corners balanced.
  function DepthFactors(q: Quad): (z: (real, real))
    requires DepthSolvable(q)
    ensures Balanced(Normalized(q), z.0, z.1)
  {
    var n := Normalized(q);
    var s := DepthSystem(q);
    var z := Solve2x2(s.0, s.1, s.2, s.3, s.4, s.5);
    SolvedSystem(s, z);
    BalanceFromSystem(n, s, z);
    z
  }

  /// The corners of a quad n centred on the crossing are balanced by z2 and
  /// z4 when n0 + (z2 + z4 - 1)*n2 == z2*n1 + z4*n3.
  predicate Balanced(n: Quad, z2: real, z4: real)
  {
    Add(n[0], Scale(z2 + z4 - 1.0, n[2])) == Add(Scale(z2, n[1]), Scale(z4, n[3]))
  }

  /// A solution of the depth system balances the centred corners.
  lemma BalanceFromSystem(n: Quad, s: (real, real, real, real, real, real), z: (real, real))
    requires s.0 == n[1].x - n[2].x && s.1 == n[3].x - n[2].x && s.4 == n[0].x - n[2].x
    requires s.2 == n[1].y - n[2].y && s.3 == n[3].y - n[2].y && s.5 == n[0].y - n[2].y
    requires s.0 * z.0 + s.1 * z.1 == s.4 && s.2 * z.0 + s.3 * z.1 == s.5
    ensures Balanced(n, z.0, z.1)
  {
    BalanceComponent(n[0].x, n[1].x, n[2].x, n[3].x, s.0, s.1, z.0, z.1);
    BalanceComponent(n[0].y, n[1].y, n[2].y, n[3].y, s.2, s.3, z.0, z.1);
  }

  /// The solver's result satisfies the system it was given.
  lemma SolvedSystem(s: (real, real, real, real, real, real), z: (real, real))
    requires Det2(s.0, s.1, s.2, s.3) != 0.0 && z == Solve2x2(s.0, s.1, s.2, s.3, s.4, s.5)
    ensures s.0 * z.0 + s.1 * z.1 == s.4 && s.2 * z.0 + s.3 * z.1 == s.5
  {
  }

  /// One component of the balance, from one equation of the depth system.
  lemma BalanceComponent(n0: real, n1: real, n2: real, n3: real, a: real, b: real, z2: real, z4: real)
    requires a == n1 - n2 && b == n3 - n2 && a * z2 + b * z4 == n0 - n2
    ensures n0 + (z2 + z4 - 1.0) * n2 == z2 * n1 + z4 * n3
  {
    assert a * z2 == z2 * n1 - z2 * n2 && b * z4 == z4 * n3 - z4 * n2;
  }

  /// Every step of the lift is defined: neither system is singular and the
  /// depth factors do not sum to zero.
  predicate LiftDefined(q: Quad)
  {
    DepthSolvable(q) && var z := DepthFactors(q); z.0 + z.1 != 0.0
  }

  /// The corners of the centred quad n lifted onto their lines of sight at
  /// the depths 1, z2, z2 + z4 - 1 and z4, scaled so that z2 and z4 average
  /// to one.
  function LiftCorners(center: Vec2, n: Quad, z2: real, z4: real): SpatialQuad
    requires z2 + z4 != 0.0
  {
    var scalefactor := (z2 + z4) / 2.0;
    SpatialQuad(center, z2, z4,
                Div3(Lift(n[0], ScreenZ), scalefactor),
                Div3(Scale3(z2, Lift(n[1], ScreenZ)), scalefactor),
                Div3(Scale3(z2 + z4 - 1.0, Lift(n[2], ScreenZ)), scalefactor),
                Div3(Scale3(z4, Lift(n[3], ScreenZ)), scalefactor))
  }

  /// The parallelogram in space that the solver finds for the quad q.
  function InnerToTextLift(q: Quad): (l: SpatialQuad)
    requires LiftDefined(q)
    ensures l.center == DiagonalCenter(q)
  {
    var z := DepthFactors(q);
    LiftCorners(DiagonalCenter(q), Normalized(q), z.0, z.1)
  }

  // ---------------------------------------------------------------------------
  // Properties
  // ---------------------------------------------------------------------------

  /// A point in space lies on the line of sight through the screen point p
  /// (relative to the crossing) when it is a multiple of (p, ScreenZ).
  predicate OnLineOfSight(r: Vec3, p: Vec2)
  {
    r.x * ScreenZ == r.z * p.x && r.y * ScreenZ == r.z * p.y
  }

  lemma ScaledOnLineOfSight(k: real, sf: real, p: Vec2)
    requires sf != 0.0
    ensures OnLineOfSight(Div3(Scale3(k, Lift(p, ScreenZ)), sf), p)
  {
    var r := Div3(Scale3(k, Lift(p, ScreenZ)), sf);
    assert r.x * sf == k * p.x && r.y * sf == k * p.y && r.z * sf == k * ScreenZ;
    assert (r.x * ScreenZ) * sf == (r.z * p.x) * sf;
    assert (r.y * ScreenZ) * sf == (r.z * p.y) * sf;
  }

  /// Each lifted corner lies on the line of sight through its corner of the
  /// centred quad, so the lifted quad projects onto it.
  lemma LiftCornersOnLinesOfSight(center: Vec2, n: Quad, z2: real, z4: real)
    requires z2 + z4 != 0.0
    ensures var l := LiftCorners(center, n, z2, z4);
      && OnLineOfSight(l.r1, n[0]) && OnLineOfSight(l.r2, n[1])
      && OnLineOfSight(l.r3, n[2]) && OnLineOfSight(l.r4, n[3])
  {
    var sf := (z2 + z4) / 2.0;
    assert Lift(n[0], ScreenZ) == Scale3(1.0, Lift(n[0], ScreenZ));
    ScaledOnLineOfSight(1.0, sf, n[0]);
    ScaledOnLineOfSight(z2, sf, n[1]);
    ScaledOnLineOfSight(z2 + z4 - 1.0, sf, n[2]);
    ScaledOnLineOfSight(z4, sf, n[3]);
  }

  /// Division by k distributes over sums of points.
  lemma DivAdd3(u: Vec3, v: Vec3, k: real)
    requires k != 0.0
    ensures Add3(Div3(u, k), Div3(v, k)) == Div3(Add3(u, v), k)
  {
    assert u.x / k + v.x / k == (u.x + v.x) / k;
    assert u.y / k + v.y / k == (u.y + v.y) / k;
    assert u.z / k + v.z / k == (u.z + v.z) / k;
  }

  /// Balanced corners lift to a parallelogram: r1 + r3 == r2 + r4.
  lemma LiftCornersParallelogram(center: Vec2, n: Quad, z2: real, z4: real)
    requires z2 + z4 != 0.0 && Balanced(n, z2, z4)
    ensures var l := LiftCorners(center, n, z2, z4);
      Add3(l.r1, l.r3) == Add3(l.r2, l.r4)
  {
    var sf := (z2 + z4) / 2.0;
    var v0, v1 := Lift(n[0], ScreenZ), Scale3(z2, Lift(n[1], ScreenZ));
    var v2, v3 := Scale3(z2 + z4 - 1.0, Lift(n[2], ScreenZ)), Scale3(z4, Lift(n[3], ScreenZ));
    DivAdd3(v0, v2, sf);
    DivAdd3(v1, v3, sf);
    assert Add3(v0, v2) == Add3(v1, v3);
  }

  /// Balanced corners whose balance vanishes lift to a parallelogram whose
  /// corners sum to (0, 0, 4*ScreenZ).
  lemma LiftCornersCentered(center: Vec2, n: Quad, z2: real, z4: real)
    requires z2 + z4 != 0.0 && Balanced(n, z2, z4)
    requires Add(n[0], Scale(z2 + z4 - 1.0, n[2])) == Vec2(0.0, 0.0)
    ensures var l := LiftCorners(center, n, z2, z4);
      Add3(Add3(l.r1, l.r2), Add3(l.r3, l.r4)) == Vec3(0.0, 0.0, 4.0 * ScreenZ)
  {
    var sf := (z2 + z4) / 2.0;
    var v0, v1 := Lift(n[0], ScreenZ), Scale3(z2, Lift(n[1], ScreenZ));
    var v2, v3 := Scale3(z2 + z4 - 1.0, Lift(n[2], ScreenZ)), Scale3(z4, Lift(n[3], ScreenZ));
    DivAdd3(v0, v1, sf);
    DivAdd3(v2, v3, sf);
    DivAdd3(Add3(v0, v1), Add3(v2, v3), sf);
    assert Add3(Add3(v0, v1), Add3(v2, v3)) == Vec3(0.0, 0.0, 4.0 * ScreenZ * sf);
    MulDivCancel(4.0 * ScreenZ, sf);
  }

  /// Multiplying by k and dividing by k cancel.
  lemma MulDivCancel(a: real, k: real)
    requires k != 0.0
    ensures a * k / k == a
  {
    var q := a * k / k;
    assert q * k == a * k;
    assert (q - a) * k == 0.0;
  }

  /// A combination of two multiples of d is a multiple of d.
  lemma Combine(k1: real, k2: real, a1: real, a2: real, c: real, d: Vec2, p1: Vec2, p2: Vec2)
    requires p1 == Scale(a1, d) && p2 == Scale(a2, d) && c == k1 * a1 + k2 * a2
    ensures Add(Scale(k1, p1), Scale(k2, p2)) == Scale(c, d)
  {
    CombineComponent(k1, k2, a1, a2, c, d.x);
    CombineComponent(k1, k2, a1, a2, c, d.y);
  }

  /// Combine, on one coordinate.
  lemma CombineComponent(k1: real, k2: real, a1: real, a2: real, c: real, x: real)
    requires c == k1 * a1 + k2 * a2
    ensures k1 * (a1 * x) + k2 * (a2 * x) == c * x
  {
    assert k1 * (a1 * x) == (k1 * a1) * x && k2 * (a2 * x) == (k2 * a2) * x;
    assert (k1 * a1) * x + (k2 * a2) * x == (k1 * a1 + k2 * a2) * x;
  }

  /// A point moved by a multiple of d from a multiple of d is a multiple of d.
  lemma CombineOffset(k: real, a1: real, a2: real, c: real, d: Vec2, p1: Vec2, p2: Vec2)
    requires p1 == Scale(a1, d) && p2 == Scale(a2, d) && c == a1 + k * a2
    ensures Add(p1, Scale(k, p2)) == Scale(c, d)
  {
    assert a1 * d.x + k * (a2 * d.x) == c * d.x;
    assert a1 * d.y + k * (a2 * d.y) == c * d.y;
  }

  /// Two multiples of independent vectors agree only when both are zero.
  lemma IndependentMultiples(d1: Vec2, d2: Vec2, alpha: real, beta: real)
    requires Det2(d1.x, d2.x, d1.y, d2.y) != 0.0
    requires Scale(alpha, d1) == Scale(beta, d2)
    ensures alpha == 0.0 && beta == 0.0
  {
    HomogeneousOnlyZero(d1.x, d2.x, d1.y, d2.y, alpha, -beta);
  }

  /// The normalised first and third corners lie on the first diagonal, the
  /// second and fourth on the other one.
  lemma NormalizedOnDiagonals(q: Quad)
    requires DiagonalDet(q) != 0.0
    ensures var n := Normalized(q);
      var la := DiagonalParams(q);
      && n[0] == Scale(-la.0, Diag1(q)) && n[2] == Scale(1.0 - la.0, Diag1(q))
      && n[3] == Scale(la.1, Diag2(q)) && n[1] == Scale(1.0 + la.1, Diag2(q))
  {
    var la := DiagonalParams(q);
    CornersAroundCrossing(q[0], q[1], q[2], q[3], DiagonalCenter(q), la.0, la.1, Normalized(q));
  }

  /// The corners seen from the point c where the segments q0-q2 and q3-q1
  /// cross, at parameters t1 and -t2.
  lemma CornersAroundCrossing(q0: Vec2, q1: Vec2, q2: Vec2, q3: Vec2, c: Vec2, t1: real, t2: real, n: Quad)
    requires c == Add(q0, Scale(t1, Sub(q2, q0))) && c == Sub(q3, Scale(t2, Sub(q1, q3)))
    requires n == [Sub(q0, c), Sub(q1, c), Sub(q2, c), Sub(q3, c)]
    ensures n[0] == Scale(-t1, Sub(q2, q0)) && n[2] == Scale(1.0 - t1, Sub(q2, q0))
    ensures n[3] == Scale(t2, Sub(q1, q3)) && n[1] == Scale(1.0 + t2, Sub(q1, q3))
  {
    FromCrossing(q0.x, q2.x, c.x, t1);
    FromCrossing(q0.y, q2.y, c.y, t1);
    FromCrossing(q3.x, q1.x, c.x, -t2);
    FromCrossing(q3.y, q1.y, c.y, -t2);
  }

  /// A point c at parameter t along the segment from a to b is -t times the
  /// segment from a and 1 - t times it from b.
  lemma FromCrossing(a: real, b: real, c: real, t: real)
    requires c == a + t * (b - a)
    ensures a - c == -t * (b - a) && b - c == (1.0 - t) * (b - a)
  {
  }

  /// For a quad whose first and third corners are multiples of d1 and
  /// whose second and fourth are multiples of d2, with d1 and d2
  /// independent, balanced corners have a vanishing balance.
  lemma BalanceVanishesOnDiagonals(n: Quad, z2: real, z4: real, d1: Vec2, d2: Vec2, la1: real, la2: real)
    requires Det2(d1.x, d2.x, d1.y, d2.y) != 0.0
    requires n[0] == Scale(-la1, d1) && n[2] == Scale(1.0 - la1, d1)
    requires n[3] == Scale(la2, d2) && n[1] == Scale(1.0 + la2, d2)
    requires Balanced(n, z2, z4)
    ensures Add(n[0], Scale(z2 + z4 - 1.0, n[2])) == Vec2(0.0, 0.0)
  {
    var z3 := z2 + z4 - 1.0;
    var alpha := -la1 + z3 * (1.0 - la1);
    var beta := z2 * (1.0 + la2) + z4 * la2;
    CombineOffset(z3, -la1, 1.0 - la1, alpha, d1, n[0], n[2]);
    Combine(z2, z4, 1.0 + la2, la2, beta, d2, n[1], n[3]);
    IndependentMultiples(d1, d2, alpha, beta);
  }

  /// The lifted quad lies on the lines of sight through the corners of the
  /// quad (normalised to the crossing of its diagonals), it is a
  /// parallelogram, and it is centred on the viewer's axis at the screen's
  /// depth: its corners sum to (0, 0, 4*ScreenZ).
  lemma LiftIsCenteredParallelogram(q: Quad)
    requires LiftDefined(q)
    ensures var l := InnerToTextLift(q);
      var n := Normalized(q);
      && OnLineOfSight(l.r1, n[0]) && OnLineOfSight(l.r2, n[1])
      && OnLineOfSight(l.r3, n[2]) && OnLineOfSight(l.r4, n[3])
      && Add3(l.r1, l.r3) == Add3(l.r2, l.r4)
      && Add3(Add3(l.r1, l.r2), Add3(l.r3, l.r4)) == Vec3(0.0, 0.0, 4.0 * ScreenZ)
  {
    var n := Normalized(q);
    var z := DepthFactors(q);
    var c := DiagonalCenter(q);
    var la := DiagonalParams(q);
    NormalizedOnDiagonals(q);
    assert Det2(Diag1(q).x, Diag2(q).x, Diag1(q).y, Diag2(q).y) != 0.0;
    BalanceVanishesOnDiagonals(n, z.0, z.1, Diag1(q), Diag2(q), la.0, la.1);
    LiftCornersOnLinesOfSight(c, n, z.0, z.1);
    LiftCornersParallelogram(c, n, z.0, z.1);
    LiftCornersCentered(c, n, z.0, z.1);
  }
}
