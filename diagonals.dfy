/// The crossing of a quad's diagonals, found with the 2x2 solver.
///
/// The tool writes the crossing as q0 + la1*(q2 - q0) = q3 - la2*(q1 - q3)
/// and solves for la1 and la2.  It uses the result three times: as the
/// convexity guard of a drag (both parameters in range), as the position of
/// the origin handle, and as the centre the inverse solver normalises to.
module Diagonals {
  import opened Vectors
  import opened PerspectiveMath

  /// The diagonal from the first corner to the third.
  function Diag1(q: Quad): Vec2 { Sub(q[2], q[0]) }

  /// The diagonal from the fourth corner to the second.
  function Diag2(q: Quad): Vec2 { Sub(q[1], q[3]) }

  /// The determinant of the diagonals' system; zero iff they are parallel.
  function DiagonalDet(q: Quad): real
  {
    Det2(Diag1(q).x, Diag2(q).x, Diag1(q).y, Diag2(q).y)
  }

  /// The parameters (la1, la2) at which the two diagonals meet.
  function DiagonalParams(q: Quad): (la: (real, real))
    requires DiagonalDet(q) != 0.0
    ensures Add(q[0], Scale(la.0, Diag1(q))) == Sub(q[3], Scale(la.1, Diag2(q)))
  {
    var b := Sub(q[3], q[0]);
    Solve2x2(Diag1(q).x, Diag2(q).x, Diag1(q).y, Diag2(q).y, b.x, b.y)
  }

  /// The diagonals meet at only one pair of parameters.
  lemma DiagonalParamsUnique(q: Quad, la: (real, real))
    requires DiagonalDet(q) != 0.0
    requires Add(q[0], Scale(la.0, Diag1(q))) == Sub(q[3], Scale(la.1, Diag2(q)))
    ensures DiagonalParams(q) == la
  {
    LinesMeetOnce(q[0], q[3], Diag1(q), Diag2(q), la, DiagonalParams(q));
  }

  /// Two lines p0 + t*d1 and p3 - t*d2 with independent directions meet at
  /// one pair of parameters.
  lemma LinesMeetOnce(p0: Vec2, p3: Vec2, d1: Vec2, d2: Vec2, la: (real, real), s: (real, real))
    requires Det2(d1.x, d2.x, d1.y, d2.y) != 0.0
    requires Add(p0, Scale(la.0, d1)) == Sub(p3, Scale(la.1, d2))
    requires Add(p0, Scale(s.0, d1)) == Sub(p3, Scale(s.1, d2))
    ensures la == s
  {
    var b := Sub(p3, p0);
    LineSystem(p0, p3, d1, d2, la.0, la.1);
    LineSystem(p0, p3, d1, d2, s.0, s.1);
    SolutionsAgree(d1.x, d2.x, d1.y, d2.y, b.x, b.y, la.0, la.1, s);
  }

  /// The convexity guard of a drag: the crossing lies on both diagonals
  /// between their end points.
  predicate DiagonalsCross(q: Quad)
    requires DiagonalDet(q) != 0.0
  {
    var la := DiagonalParams(q);
    !(la.0 < 0.0 || la.0 > 1.0 || -la.1 < 0.0 || -la.1 > 1.0)
  }

  /// The point where the diagonals cross.
  function DiagonalCenter(q: Quad): (c: Vec2)
    requires DiagonalDet(q) != 0.0
    ensures Orient(q[0], q[2], c) == 0.0 && Orient(q[3], q[1], c) == 0.0
  {
    var la := DiagonalParams(q);
    var c := Add(q[0], Scale(la.0, Diag1(q)));
    assert Sub(c, q[0]) == Scale(la.0, Diag1(q));
    assert Sub(c, q[3]) == Scale(-la.1, Diag2(q));
    CrossScaled(Diag1(q), la.0);
    CrossScaled(Diag2(q), -la.1);
    c
  }

  /// A vector is parallel to its multiples.
  lemma CrossScaled(d: Vec2, t: real)
    ensures Cross(d, Scale(t, d)) == 0.0
  {
    assert d.x * (t * d.y) == d.y * (t * d.x);
  }

  /// The quad moved by t.
  function Translate(q: Quad, t: Vec2): (r: Quad)
  {
    [Add(q[0], t), Add(q[1], t), Add(q[2], t), Add(q[3], t)]
  }

  // ---------------------------------------------------------------------------
  // The guard in terms of orientations
  // ---------------------------------------------------------------------------

  /// x = n/d lies in [0, 1] exactly when n and d - n do not have opposite signs.
  lemma UnitIntervalIff(x: real, n: real, d: real)
    requires d != 0.0 && x * d == n
    ensures (0.0 <= x <= 1.0) <==> n * (d - n) >= 0.0
  {
    assert n * (d - n) == (x * (1.0 - x)) * (d * d);
    assert d * d > 0.0;
    if x * (1.0 - x) >= 0.0 {
      assert 0.0 <= x <= 1.0;
    } else {
      assert n * (d - n) < 0.0;
    }
  }

  /// A quad passes the convexity guard exactly when each diagonal separates
  /// the two corners off it: q0 and q2 lie on different sides of the line
  /// through q3 and q1 (or on it), and q1 and q3 on different sides of the
  /// line through q0 and q2 (or on it).
  lemma DiagonalsCrossIffSeparated(q: Quad)
    requires DiagonalDet(q) != 0.0
    ensures DiagonalsCross(q) <==>
      && Orient(q[3], q[1], q[0]) * Orient(q[3], q[1], q[2]) <= 0.0
      && Orient(q[0], q[2], q[1]) * Orient(q[0], q[2], q[3]) <= 0.0
  {
    SeparatedAt(q, DiagonalParams(q));
  }

  /// DiagonalsCrossIffSeparated for any parameters at which the diagonals meet.
  lemma SeparatedAt(q: Quad, la: (real, real))
    requires DiagonalDet(q) != 0.0
    requires Add(q[0], Scale(la.0, Diag1(q))) == Sub(q[3], Scale(la.1, Diag2(q)))
    ensures !(la.0 < 0.0 || la.0 > 1.0 || -la.1 < 0.0 || -la.1 > 1.0) <==>
      && Orient(q[3], q[1], q[0]) * Orient(q[3], q[1], q[2]) <= 0.0
      && Orient(q[0], q[2], q[1]) * Orient(q[0], q[2], q[3]) <= 0.0
  {
    var b := Sub(q[3], q[0]);
    var n1 := Cross(b, Diag2(q));
    var m := Cross(b, Diag1(q));
    var p1 := Orient(q[3], q[1], q[0]) * Orient(q[3], q[1], q[2]);
    var p2 := Orient(q[0], q[2], q[1]) * Orient(q[0], q[2], q[3]);
    CramerDiagonals(q, la);
    SeparationProducts(q, n1, m);
    GuardIff(la.0, la.1, DiagonalDet(q), n1, m, p1, p2);
  }

  /// Cramer's rule for the diagonals' parameters: any parameters at which
  /// the diagonals meet are the ratios of cross products to the determinant.
  lemma CramerDiagonals(q: Quad, la: (real, real))
    requires Add(q[0], Scale(la.0, Diag1(q))) == Sub(q[3], Scale(la.1, Diag2(q)))
    ensures la.0 * DiagonalDet(q) == Cross(Sub(q[3], q[0]), Diag2(q))
    ensures (-la.1) * DiagonalDet(q) == Cross(Sub(q[3], q[0]), Diag1(q))
  {
    LineSystem(q[0], q[3], Diag1(q), Diag2(q), la.0, la.1);
    CramerCross(Diag1(q), Diag2(q), Sub(q[3], q[0]), la.0, la.1);
  }

  /// The meeting point of two lines as a 2x2 system.
  lemma LineSystem(p0: Vec2, p3: Vec2, d1: Vec2, d2: Vec2, l0: real, l1: real)
    requires Add(p0, Scale(l0, d1)) == Sub(p3, Scale(l1, d2))
    ensures d1.x * l0 + d2.x * l1 == Sub(p3, p0).x && d1.y * l0 + d2.y * l1 == Sub(p3, p0).y
  {
  }

  /// Cramer's rule for the system l0*d1 + l1*d2 = b, with the numerators
  /// written as cross products.
  lemma CramerCross(d1: Vec2, d2: Vec2, b: Vec2, l0: real, l1: real)
    requires d1.x * l0 + d2.x * l1 == b.x && d1.y * l0 + d2.y * l1 == b.y
    ensures l0 * Det2(d1.x, d2.x, d1.y, d2.y) == Cross(b, d2)
    ensures (-l1) * Det2(d1.x, d2.x, d1.y, d2.y) == Cross(b, d1)
  {
    CramerFromSystem(d1.x, d2.x, d1.y, d2.y, b.x, b.y, l0, l1);
    assert (-l1) * Det2(d1.x, d2.x, d1.y, d2.y) == -(l1 * Det2(d1.x, d2.x, d1.y, d2.y));
  }

  /// The orientation products of the guard, in terms of the numerators of
  /// Cramer's rule for la1 and -la2.
  lemma SeparationProducts(q: Quad, n1: real, m: real)
    requires n1 == Cross(Sub(q[3], q[0]), Diag2(q)) && m == Cross(Sub(q[3], q[0]), Diag1(q))
    ensures Orient(q[3], q[1], q[0]) * Orient(q[3], q[1], q[2]) == -(n1 * (DiagonalDet(q) - n1))
    ensures Orient(q[0], q[2], q[1]) * Orient(q[0], q[2], q[3]) == -(m * (DiagonalDet(q) - m))
  {
    var det := DiagonalDet(q);
    assert Orient(q[3], q[1], q[0]) == n1;
    assert Orient(q[3], q[1], q[2]) == -(det - n1);
    assert Orient(q[0], q[2], q[1]) == det - m;
    assert Orient(q[0], q[2], q[3]) == -m;
  }

  /// The guard's range tests, as signs of the products of Cramer's numerators.
  lemma GuardIff(la1: real, la2: real, det: real, n1: real, m: real, p1: real, p2: real)
    requires det != 0.0 && la1 * det == n1 && (-la2) * det == m
    requires p1 == -(n1 * (det - n1)) && p2 == -(m * (det - m))
    ensures !(la1 < 0.0 || la1 > 1.0 || -la2 < 0.0 || -la2 > 1.0) <==> p1 <= 0.0 && p2 <= 0.0
  {
    UnitIntervalIff(la1, n1, det);
    UnitIntervalIff(-la2, m, det);
  }

  /// Moving a quad moves the crossing of its diagonals with it and leaves
  /// the guard's verdict unchanged.
  lemma TranslateDiagonals(q: Quad, t: Vec2)
    requires DiagonalDet(q) != 0.0
    ensures DiagonalDet(Translate(q, t)) == DiagonalDet(q)
    ensures DiagonalParams(Translate(q, t)) == DiagonalParams(q)
    ensures DiagonalsCross(Translate(q, t)) == DiagonalsCross(q)
    ensures DiagonalCenter(Translate(q, t)) == Add(DiagonalCenter(q), t)
  {
    var r := Translate(q, t);
    assert Diag1(r) == Diag1(q);
    assert Diag2(r) == Diag2(q);
    assert Sub(r[3], r[0]) == Sub(q[3], q[0]);
  }
}
