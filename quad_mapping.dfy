/// What the quad mapping means: UVToXY sends the unit square's corners to the
/// quad's corners, and XYToUV is its two-sided inverse wherever both are
/// defined.  The source's expanded formulas are first brought into a closed
/// form built from the corner areas A, B, C and E = A + B - C (see
/// QuadAlgebra), on coordinates relative to the first corner, and the results
/// are lifted to quads last.
module QuadMapping {
  import opened Vectors
  import opened PerspectiveMath
  import opened QuadAlgebra

  // ---------------------------------------------------------------------------
  // The quantities of the closed form, on relative coordinates
  // ---------------------------------------------------------------------------

  /// Twice the signed area of the corner triple 1-3-2.
  function AreaARel(x2: real, x3: real, y2: real, y3: real): real { x3*y2 - x2*y3 }
  /// Twice the signed area of the corner triple 1-4-3.
  function AreaBRel(x3: real, x4: real, y3: real, y4: real): real { x4*y3 - x3*y4 }
  /// Twice the signed area of the corner triple 1-4-2.
  function AreaCRel(x2: real, x4: real, y2: real, y4: real): real { x4*y2 - x2*y4 }
  /// The cross product of the corner (xa, ya) with the point (x, y).
  function CrossRel(xa: real, ya: real, x: real, y: real): real { xa * y - x * ya }

  /// No three corners of the quad lie on one line.
  predicate NoThreeCollinearRel(x2: real, x3: real, x4: real, y2: real, y3: real, y4: real)
  {
    && AreaARel(x2, x3, y2, y3) != 0.0
    && AreaBRel(x3, x4, y3, y4) != 0.0
    && AreaCRel(x2, x4, y2, y4) != 0.0
    && AreaARel(x2, x3, y2, y3) + AreaBRel(x3, x4, y3, y4) - AreaCRel(x2, x4, y2, y4) != 0.0
  }

  /// The common denominator D of the inverse map, in closed form.
  function InverseDenominatorRel(x2: real, x3: real, x4: real, y2: real, y3: real, y4: real, x: real, y: real): real
  {
    var a := AreaARel(x2, x3, y2, y3);
    var b := AreaBRel(x3, x4, y3, y4);
    var c := AreaCRel(x2, x4, y2, y4);
    a * b * c - (c - a) * (a * CrossRel(x4, y4, x, y)) + (c - b) * (b * CrossRel(x2, y2, x, y))
  }

  // ---------------------------------------------------------------------------
  // Closed forms
  // ---------------------------------------------------------------------------

  /// The forward denominator is u*(C - A) + v*(C - B) + E.
  lemma UVDenominatorClosed(x2: real, x3: real, x4: real, y2: real, y3: real, y4: real, u: real, v: real)
    ensures var a := AreaARel(x2, x3, y2, y3);
      var b := AreaBRel(x3, x4, y3, y4);
      var c := AreaCRel(x2, x4, y2, y4);
      UVDenominatorRel(x2, x3, x4, y2, y3, y4, u, v) == u * (c - a) + v * (c - b) + (a + b - c)
  {
    ForwardDenominator(x2, x3, x4, y2, y3, y4, AreaARel(x2, x3, y2, y3), AreaBRel(x3, x4, y3, y4),
                       AreaCRel(x2, x4, y2, y4), u, v, UVDenominatorRel(x2, x3, x4, y2, y3, y4, u, v));
  }

  /// The point at (u, v) times the denominator is v*A*P4 + u*B*P2.
  lemma UVToXYRelClosed(x2: real, x3: real, x4: real, y2: real, y3: real, y4: real, u: real, v: real)
    requires UVDenominatorRel(x2, x3, x4, y2, y3, y4, u, v) != 0.0
    ensures var a := AreaARel(x2, x3, y2, y3);
      var b := AreaBRel(x3, x4, y3, y4);
      var d := UVDenominatorRel(x2, x3, x4, y2, y3, y4, u, v);
      var p := UVToXYRel(x2, x3, x4, y2, y3, y4, u, v);
      d * p.x == v * a * x4 + u * b * x2 && d * p.y == v * a * y4 + u * b * y2
  {
    UVToXYRelClosedX(x2, x3, x4, y2, y3, y4, u, v);
    UVToXYRelClosedY(x2, x3, x4, y2, y3, y4, u, v);
  }

  lemma UVToXYRelClosedX(x2: real, x3: real, x4: real, y2: real, y3: real, y4: real, u: real, v: real)
    requires UVDenominatorRel(x2, x3, x4, y2, y3, y4, u, v) != 0.0
    ensures UVDenominatorRel(x2, x3, x4, y2, y3, y4, u, v) * UVToXYRel(x2, x3, x4, y2, y3, y4, u, v).x
            == v * AreaARel(x2, x3, y2, y3) * x4 + u * AreaBRel(x3, x4, y3, y4) * x2
  {
    ForwardNumerator(x2, x3, x4, y2, y3, y4, x2, x4, AreaARel(x2, x3, y2, y3), AreaBRel(x3, x4, y3, y4), u, v,
                     UVDenominatorRel(x2, x3, x4, y2, y3, y4, u, v), UVNumeratorXRel(x2, x3, x4, y2, y3, y4, u, v), UVToXYRel(x2, x3, x4, y2, y3, y4, u, v).x);
  }

  lemma UVToXYRelClosedY(x2: real, x3: real, x4: real, y2: real, y3: real, y4: real, u: real, v: real)
    requires UVDenominatorRel(x2, x3, x4, y2, y3, y4, u, v) != 0.0
    ensures UVDenominatorRel(x2, x3, x4, y2, y3, y4, u, v) * UVToXYRel(x2, x3, x4, y2, y3, y4, u, v).y
            == v * AreaARel(x2, x3, y2, y3) * y4 + u * AreaBRel(x3, x4, y3, y4) * y2
  {
    ForwardNumerator(x2, x3, x4, y2, y3, y4, y2, y4, AreaARel(x2, x3, y2, y3), AreaBRel(x3, x4, y3, y4), u, v,
                     UVDenominatorRel(x2, x3, x4, y2, y3, y4, u, v), UVNumeratorYRel(x2, x3, x4, y2, y3, y4, u, v), UVToXYRel(x2, x3, x4, y2, y3, y4, u, v).y);
  }

  /// The inverse map is defined exactly where D is nonzero: its two
  /// denominators are -D and D.
  lemma XYToUVRelDefinedIff(x2: real, x3: real, x4: real, y2: real, y3: real, y4: real, x: real, y: real)
    ensures XYToUVRelDefined(x2, x3, x4, y2, y3, y4, x, y) <==> InverseDenominatorRel(x2, x3, x4, y2, y3, y4, x, y) != 0.0
  {
    InverseDenominatorsRel(x2, x3, x4, y2, y3, y4, x, y);
  }

  lemma InverseDenominatorsRel(x2: real, x3: real, x4: real, y2: real, y3: real, y4: real, x: real, y: real)
    ensures XYDenominatorURel(x2, x3, x4, y2, y3, y4, x, y) == -InverseDenominatorRel(x2, x3, x4, y2, y3, y4, x, y)
    ensures XYDenominatorVRel(x2, x3, x4, y2, y3, y4, x, y) == InverseDenominatorRel(x2, x3, x4, y2, y3, y4, x, y)
  {
    var a := AreaARel(x2, x3, y2, y3);
    var b := AreaBRel(x3, x4, y3, y4);
    var c := AreaCRel(x2, x4, y2, y4);
    var c4 := CrossRel(x4, y4, x, y);
    var c2 := CrossRel(x2, y2, x, y);
    InverseDenominators(x2, x3, x4, y2, y3, y4, x, y, a, b, c, c4, c2, a * b * c, a * c4, b * c2,
                        InverseDenominatorRel(x2, x3, x4, y2, y3, y4, x, y),
                        XYDenominatorURel(x2, x3, x4, y2, y3, y4, x, y), XYDenominatorVRel(x2, x3, x4, y2, y3, y4, x, y));
  }

  /// The numerator of the u coordinate is E*A*c4.
  lemma XYNumeratorURelClosed(x2: real, x3: real, x4: real, y2: real, y3: real, y4: real, x: real, y: real)
    ensures var a := AreaARel(x2, x3, y2, y3);
      var e := a + AreaBRel(x3, x4, y3, y4) - AreaCRel(x2, x4, y2, y4);
      XYNumeratorURel(x2, x3, x4, y2, y3, y4, x, y) == e * (a * CrossRel(x4, y4, x, y))
  {
    var a := AreaARel(x2, x3, y2, y3);
    var c4 := CrossRel(x4, y4, x, y);
    NumeratorU(x2, x3, x4, y2, y3, y4, x, y, a, AreaBRel(x3, x4, y3, y4), AreaCRel(x2, x4, y2, y4), c4, a * c4, XYNumeratorURel(x2, x3, x4, y2, y3, y4, x, y));
  }

  /// The numerator of the v coordinate is -E*B*c2.
  lemma XYNumeratorVRelClosed(x2: real, x3: real, x4: real, y2: real, y3: real, y4: real, x: real, y: real)
    ensures var b := AreaBRel(x3, x4, y3, y4);
      var e := AreaARel(x2, x3, y2, y3) + b - AreaCRel(x2, x4, y2, y4);
      XYNumeratorVRel(x2, x3, x4, y2, y3, y4, x, y) == -e * (b * CrossRel(x2, y2, x, y))
  {
    var b := AreaBRel(x3, x4, y3, y4);
    var c2 := CrossRel(x2, y2, x, y);
    NumeratorV(x2, x3, x4, y2, y3, y4, x, y, AreaARel(x2, x3, y2, y3), b, AreaCRel(x2, x4, y2, y4), c2, b * c2, XYNumeratorVRel(x2, x3, x4, y2, y3, y4, x, y));
  }

  /// The coordinates of the point (x, y), times D, are E*A*c4 and -E*B*c2.
  lemma XYToUVRelClosed(x2: real, x3: real, x4: real, y2: real, y3: real, y4: real, x: real, y: real)
    requires XYToUVRelDefined(x2, x3, x4, y2, y3, y4, x, y)
    ensures var a := AreaARel(x2, x3, y2, y3);
      var b := AreaBRel(x3, x4, y3, y4);
      var e := a + b - AreaCRel(x2, x4, y2, y4);
      var dd := InverseDenominatorRel(x2, x3, x4, y2, y3, y4, x, y);
      var w := XYToUVRel(x2, x3, x4, y2, y3, y4, x, y);
      && dd * w.x == e * (a * CrossRel(x4, y4, x, y))
      && dd * w.y == -e * (b * CrossRel(x2, y2, x, y))
  {
    XYToUVRelClosedU(x2, x3, x4, y2, y3, y4, x, y);
    XYToUVRelClosedV(x2, x3, x4, y2, y3, y4, x, y);
  }

  lemma XYToUVRelClosedU(x2: real, x3: real, x4: real, y2: real, y3: real, y4: real, x: real, y: real)
    requires XYToUVRelDefined(x2, x3, x4, y2, y3, y4, x, y)
    ensures var a := AreaARel(x2, x3, y2, y3);
      var e := a + AreaBRel(x3, x4, y3, y4) - AreaCRel(x2, x4, y2, y4);
      InverseDenominatorRel(x2, x3, x4, y2, y3, y4, x, y) * XYToUVRel(x2, x3, x4, y2, y3, y4, x, y).x == e * (a * CrossRel(x4, y4, x, y))
  {
    var a := AreaARel(x2, x3, y2, y3);
    var e := a + AreaBRel(x3, x4, y3, y4) - AreaCRel(x2, x4, y2, y4);
    InverseDenominatorsRel(x2, x3, x4, y2, y3, y4, x, y);
    XYNumeratorURelClosed(x2, x3, x4, y2, y3, y4, x, y);
    QuotientU(XYNumeratorURel(x2, x3, x4, y2, y3, y4, x, y), XYDenominatorURel(x2, x3, x4, y2, y3, y4, x, y), InverseDenominatorRel(x2, x3, x4, y2, y3, y4, x, y),
              e, a * CrossRel(x4, y4, x, y), XYToUVRel(x2, x3, x4, y2, y3, y4, x, y).x);
  }

  lemma XYToUVRelClosedV(x2: real, x3: real, x4: real, y2: real, y3: real, y4: real, x: real, y: real)
    requires XYToUVRelDefined(x2, x3, x4, y2, y3, y4, x, y)
    ensures var b := AreaBRel(x3, x4, y3, y4);
      var e := AreaARel(x2, x3, y2, y3) + b - AreaCRel(x2, x4, y2, y4);
      InverseDenominatorRel(x2, x3, x4, y2, y3, y4, x, y) * XYToUVRel(x2, x3, x4, y2, y3, y4, x, y).y == -e * (b * CrossRel(x2, y2, x, y))
  {
    var b := AreaBRel(x3, x4, y3, y4);
    var e := AreaARel(x2, x3, y2, y3) + b - AreaCRel(x2, x4, y2, y4);
    InverseDenominatorsRel(x2, x3, x4, y2, y3, y4, x, y);
    XYNumeratorVRelClosed(x2, x3, x4, y2, y3, y4, x, y);
    QuotientV(XYNumeratorVRel(x2, x3, x4, y2, y3, y4, x, y), XYDenominatorVRel(x2, x3, x4, y2, y3, y4, x, y), InverseDenominatorRel(x2, x3, x4, y2, y3, y4, x, y),
              e, b * CrossRel(x2, y2, x, y), XYToUVRel(x2, x3, x4, y2, y3, y4, x, y).y);
  }

  // ---------------------------------------------------------------------------
  // The two maps undo each other, on relative coordinates
  // ---------------------------------------------------------------------------

  /// At the point p that (u, v) is sent to, D*(u, v) = (E*A*c4, -E*B*c2) with D
  /// nonzero.
  lemma ImageInverseRel(x2: real, x3: real, x4: real, y2: real, y3: real, y4: real, u: real, v: real)
    requires NoThreeCollinearRel(x2, x3, x4, y2, y3, y4)
    requires UVDenominatorRel(x2, x3, x4, y2, y3, y4, u, v) != 0.0
    ensures var a := AreaARel(x2, x3, y2, y3);
      var b := AreaBRel(x3, x4, y3, y4);
      var e := a + b - AreaCRel(x2, x4, y2, y4);
      var p := UVToXYRel(x2, x3, x4, y2, y3, y4, u, v);
      var dd := InverseDenominatorRel(x2, x3, x4, y2, y3, y4, p.x, p.y);
      && dd != 0.0
      && dd * u == e * (a * CrossRel(x4, y4, p.x, p.y))
      && dd * v == -e * (b * CrossRel(x2, y2, p.x, p.y))
  {
    UVDenominatorClosed(x2, x3, x4, y2, y3, y4, u, v);
    ImageCrossesRel(x2, x3, x4, y2, y3, y4, u, v);
    ImageInverseAt(AreaARel(x2, x3, y2, y3), AreaBRel(x3, x4, y3, y4), AreaCRel(x2, x4, y2, y4),
                   CrossRel(x4, y4, UVToXYRel(x2, x3, x4, y2, y3, y4, u, v).x, UVToXYRel(x2, x3, x4, y2, y3, y4, u, v).y),
                   CrossRel(x2, y2, UVToXYRel(x2, x3, x4, y2, y3, y4, u, v).x, UVToXYRel(x2, x3, x4, y2, y3, y4, u, v).y),
                   u, v, UVDenominatorRel(x2, x3, x4, y2, y3, y4, u, v),
                   InverseDenominatorRel(x2, x3, x4, y2, y3, y4, UVToXYRel(x2, x3, x4, y2, y3, y4, u, v).x, UVToXYRel(x2, x3, x4, y2, y3, y4, u, v).y));
  }

  /// ImageInverse with the corner areas a, b, c and the cross products c4, c2
  /// of the image point as parameters.
  lemma ImageInverseAt(a: real, b: real, c: real, c4: real, c2: real, u: real, v: real, d: real, dd: real)
    requires a != 0.0 && b != 0.0 && c != 0.0 && a + b - c != 0.0
    requires d == u * (c - a) + v * (c - b) + (a + b - c) && d != 0.0
    requires d * (a * c4) == u * (a * b * c) && d * (b * c2) == -v * (a * b * c)
    requires dd == a * b * c - (c - a) * (a * c4) + (c - b) * (b * c2)
    ensures dd != 0.0 && dd * u == (a + b - c) * (a * c4) && dd * v == -(a + b - c) * (b * c2)
  {
    var k, s, t, e := a * b * c, a * c4, b * c2, a + b - c;
    NonzeroScale(a, b, c, k, e);
    NamedProducts(a, b, c, c4, c2, u, v, d, k, s, t);
    ImageInverse(k, s, t, c - a, c - b, e, u, v, d, dd);
  }

  /// The equations of ImageInverseAt with the products k = a*b*c, s = a*c4
  /// and t = b*c2 named.
  lemma NamedProducts(a: real, b: real, c: real, c4: real, c2: real, u: real, v: real, d: real, k: real, s: real, t: real)
    requires k == a * b * c && s == a * c4 && t == b * c2
    requires d * (a * c4) == u * (a * b * c) && d * (b * c2) == -v * (a * b * c)
    ensures d * s == u * k && d * t == -v * k
  {
  }

  /// At the point p that (u, v) is sent to, d*s = u*k and d*t = -v*k.
  lemma ImageCrossesRel(x2: real, x3: real, x4: real, y2: real, y3: real, y4: real, u: real, v: real)
    requires UVDenominatorRel(x2, x3, x4, y2, y3, y4, u, v) != 0.0
    ensures var a := AreaARel(x2, x3, y2, y3);
      var b := AreaBRel(x3, x4, y3, y4);
      var c := AreaCRel(x2, x4, y2, y4);
      var d := UVDenominatorRel(x2, x3, x4, y2, y3, y4, u, v);
      var p := UVToXYRel(x2, x3, x4, y2, y3, y4, u, v);
      && d * (a * CrossRel(x4, y4, p.x, p.y)) == u * (a * b * c)
      && d * (b * CrossRel(x2, y2, p.x, p.y)) == -v * (a * b * c)
  {
    ImageCrossRel4(x2, x3, x4, y2, y3, y4, u, v);
    ImageCrossRel2(x2, x3, x4, y2, y3, y4, u, v);
  }

  lemma ImageCrossRel4(x2: real, x3: real, x4: real, y2: real, y3: real, y4: real, u: real, v: real)
    requires UVDenominatorRel(x2, x3, x4, y2, y3, y4, u, v) != 0.0
    ensures var a := AreaARel(x2, x3, y2, y3);
      var p := UVToXYRel(x2, x3, x4, y2, y3, y4, u, v);
      UVDenominatorRel(x2, x3, x4, y2, y3, y4, u, v) * (a * CrossRel(x4, y4, p.x, p.y))
      == u * (a * AreaBRel(x3, x4, y3, y4) * AreaCRel(x2, x4, y2, y4))
  {
    var a := AreaARel(x2, x3, y2, y3);
    var b := AreaBRel(x3, x4, y3, y4);
    var c := AreaCRel(x2, x4, y2, y4);
    var p := UVToXYRel(x2, x3, x4, y2, y3, y4, u, v);
    UVToXYRelClosed(x2, x3, x4, y2, y3, y4, u, v);
    ImageCross4(x2, x4, y2, y4, a, b, c, CrossRel(x4, y4, p.x, p.y), u, v, UVDenominatorRel(x2, x3, x4, y2, y3, y4, u, v), p.x, p.y);
  }

  lemma ImageCrossRel2(x2: real, x3: real, x4: real, y2: real, y3: real, y4: real, u: real, v: real)
    requires UVDenominatorRel(x2, x3, x4, y2, y3, y4, u, v) != 0.0
    ensures UVDenominatorRel(x2, x3, x4, y2, y3, y4, u, v) * (AreaBRel(x3, x4, y3, y4) * CrossRel(x2, y2, UVToXYRel(x2, x3, x4, y2, y3, y4, u, v).x, UVToXYRel(x2, x3, x4, y2, y3, y4, u, v).y))
      == -v * (AreaARel(x2, x3, y2, y3) * AreaBRel(x3, x4, y3, y4) * AreaCRel(x2, x4, y2, y4))
  {
    UVToXYRelClosed(x2, x3, x4, y2, y3, y4, u, v);
    ImageCross2(x2, x4, y2, y4, AreaARel(x2, x3, y2, y3), AreaBRel(x3, x4, y3, y4), AreaCRel(x2, x4, y2, y4),
                CrossRel(x2, y2, UVToXYRel(x2, x3, x4, y2, y3, y4, u, v).x, UVToXYRel(x2, x3, x4, y2, y3, y4, u, v).y), u, v, UVDenominatorRel(x2, x3, x4, y2, y3, y4, u, v),
                UVToXYRel(x2, x3, x4, y2, y3, y4, u, v).x, UVToXYRel(x2, x3, x4, y2, y3, y4, u, v).y);
  }

  /// XYToUV recovers (u, v) from the point UVToXY sends it to.
  lemma XYToUVInvertsUVToXYRel(x2: real, x3: real, x4: real, y2: real, y3: real, y4: real, u: real, v: real)
    requires NoThreeCollinearRel(x2, x3, x4, y2, y3, y4)
    requires UVDenominatorRel(x2, x3, x4, y2, y3, y4, u, v) != 0.0
    ensures var p := UVToXYRel(x2, x3, x4, y2, y3, y4, u, v);
      && XYToUVRelDefined(x2, x3, x4, y2, y3, y4, p.x, p.y)
      && XYToUVRel(x2, x3, x4, y2, y3, y4, p.x, p.y) == Vec2(u, v)
  {
    var a := AreaARel(x2, x3, y2, y3);
    var b := AreaBRel(x3, x4, y3, y4);
    var e := a + b - AreaCRel(x2, x4, y2, y4);
    var p := UVToXYRel(x2, x3, x4, y2, y3, y4, u, v);
    var dd := InverseDenominatorRel(x2, x3, x4, y2, y3, y4, p.x, p.y);
    ImageInverseRel(x2, x3, x4, y2, y3, y4, u, v);
    XYToUVRelDefinedIff(x2, x3, x4, y2, y3, y4, p.x, p.y);
    XYToUVRelClosed(x2, x3, x4, y2, y3, y4, p.x, p.y);
    var w := XYToUVRel(x2, x3, x4, y2, y3, y4, p.x, p.y);
    CancelVia(w.x, u, dd, e * (a * CrossRel(x4, y4, p.x, p.y)));
    CancelVia(w.y, v, dd, -e * (b * CrossRel(x2, y2, p.x, p.y)));
  }

  /// At the coordinates w that XYToUV computes for (x, y), the forward
  /// denominator d is nonzero and d*D = k*E.
  lemma PreimageForwardRel(x2: real, x3: real, x4: real, y2: real, y3: real, y4: real, x: real, y: real)
    requires NoThreeCollinearRel(x2, x3, x4, y2, y3, y4)
    requires XYToUVRelDefined(x2, x3, x4, y2, y3, y4, x, y)
    ensures var a := AreaARel(x2, x3, y2, y3);
      var b := AreaBRel(x3, x4, y3, y4);
      var c := AreaCRel(x2, x4, y2, y4);
      var w := XYToUVRel(x2, x3, x4, y2, y3, y4, x, y);
      var d := UVDenominatorRel(x2, x3, x4, y2, y3, y4, w.x, w.y);
      d != 0.0 && d * InverseDenominatorRel(x2, x3, x4, y2, y3, y4, x, y) == (a * b * c) * (a + b - c)
  {
    var a := AreaARel(x2, x3, y2, y3);
    var b := AreaBRel(x3, x4, y3, y4);
    var c := AreaCRel(x2, x4, y2, y4);
    var w := XYToUVRel(x2, x3, x4, y2, y3, y4, x, y);
    XYToUVRelDefinedIff(x2, x3, x4, y2, y3, y4, x, y);
    XYToUVRelClosed(x2, x3, x4, y2, y3, y4, x, y);
    UVDenominatorClosed(x2, x3, x4, y2, y3, y4, w.x, w.y);
    NonzeroScale(a, b, c, a * b * c, a + b - c);
    PreimageForward(a * b * c, a * CrossRel(x4, y4, x, y), b * CrossRel(x2, y2, x, y), c - a, c - b, a + b - c,
                    w.x, w.y, UVDenominatorRel(x2, x3, x4, y2, y3, y4, w.x, w.y), InverseDenominatorRel(x2, x3, x4, y2, y3, y4, x, y));
  }

  /// The point (x, y) satisfies the forward closed form at the coordinates w
  /// that XYToUV computes for it.
  lemma PreimagePointRel(x2: real, x3: real, x4: real, y2: real, y3: real, y4: real, x: real, y: real)
    requires NoThreeCollinearRel(x2, x3, x4, y2, y3, y4)
    requires XYToUVRelDefined(x2, x3, x4, y2, y3, y4, x, y)
    ensures var a := AreaARel(x2, x3, y2, y3);
      var b := AreaBRel(x3, x4, y3, y4);
      var w := XYToUVRel(x2, x3, x4, y2, y3, y4, x, y);
      var d := UVDenominatorRel(x2, x3, x4, y2, y3, y4, w.x, w.y);
      d * x == w.y * a * x4 + w.x * b * x2 && d * y == w.y * a * y4 + w.x * b * y2
  {
    var a := AreaARel(x2, x3, y2, y3);
    var b := AreaBRel(x3, x4, y3, y4);
    var c := AreaCRel(x2, x4, y2, y4);
    var c4 := CrossRel(x4, y4, x, y);
    var c2 := CrossRel(x2, y2, x, y);
    var w := XYToUVRel(x2, x3, x4, y2, y3, y4, x, y);
    PreimageForwardRel(x2, x3, x4, y2, y3, y4, x, y);
    XYToUVRelDefinedIff(x2, x3, x4, y2, y3, y4, x, y);
    XYToUVRelClosed(x2, x3, x4, y2, y3, y4, x, y);
    PreimagePoint(x2, x4, y2, y4, a, b, c, c4, c2, a * c4, b * c2, a * b * c, x, y, w.x, w.y, a + b - c,
                  UVDenominatorRel(x2, x3, x4, y2, y3, y4, w.x, w.y), InverseDenominatorRel(x2, x3, x4, y2, y3, y4, x, y));
  }

  /// UVToXY sends the coordinates XYToUV computes for a point back to it.
  lemma UVToXYInvertsXYToUVRel(x2: real, x3: real, x4: real, y2: real, y3: real, y4: real, x: real, y: real)
    requires NoThreeCollinearRel(x2, x3, x4, y2, y3, y4)
    requires XYToUVRelDefined(x2, x3, x4, y2, y3, y4, x, y)
    ensures var w := XYToUVRel(x2, x3, x4, y2, y3, y4, x, y);
      && UVDenominatorRel(x2, x3, x4, y2, y3, y4, w.x, w.y) != 0.0
      && UVToXYRel(x2, x3, x4, y2, y3, y4, w.x, w.y) == Vec2(x, y)
  {
    var a := AreaARel(x2, x3, y2, y3);
    var b := AreaBRel(x3, x4, y3, y4);
    var w := XYToUVRel(x2, x3, x4, y2, y3, y4, x, y);
    var d := UVDenominatorRel(x2, x3, x4, y2, y3, y4, w.x, w.y);
    PreimageForwardRel(x2, x3, x4, y2, y3, y4, x, y);
    PreimagePointRel(x2, x3, x4, y2, y3, y4, x, y);
    UVToXYRelClosed(x2, x3, x4, y2, y3, y4, w.x, w.y);
    var p := UVToXYRel(x2, x3, x4, y2, y3, y4, w.x, w.y);
    CancelVia(p.x, x, d, w.y * a * x4 + w.x * b * x2);
    CancelVia(p.y, y, d, w.y * a * y4 + w.x * b * y2);
  }

  // ---------------------------------------------------------------------------
  // Corners
  // ---------------------------------------------------------------------------

  /// The forward denominators at the corners (0, 0), (1, 0), (1, 1), (0, 1) of
  /// the unit square are E, B, C and A, none of them zero.
  lemma CornerDenominatorsRel(x2: real, x3: real, x4: real, y2: real, y3: real, y4: real)
    requires NoThreeCollinearRel(x2, x3, x4, y2, y3, y4)
    ensures UVDenominatorRel(x2, x3, x4, y2, y3, y4, 0.0, 0.0) != 0.0
    ensures UVDenominatorRel(x2, x3, x4, y2, y3, y4, 1.0, 0.0) == AreaBRel(x3, x4, y3, y4)
    ensures UVDenominatorRel(x2, x3, x4, y2, y3, y4, 1.0, 1.0) == AreaCRel(x2, x4, y2, y4)
    ensures UVDenominatorRel(x2, x3, x4, y2, y3, y4, 0.0, 1.0) == AreaARel(x2, x3, y2, y3)
  {
    UVDenominatorClosed(x2, x3, x4, y2, y3, y4, 0.0, 0.0);
    UVDenominatorClosed(x2, x3, x4, y2, y3, y4, 1.0, 0.0);
    UVDenominatorClosed(x2, x3, x4, y2, y3, y4, 1.0, 1.0);
    UVDenominatorClosed(x2, x3, x4, y2, y3, y4, 0.0, 1.0);
    CornerDenominators(AreaARel(x2, x3, y2, y3), AreaBRel(x3, x4, y3, y4), AreaCRel(x2, x4, y2, y4),
                       UVDenominatorRel(x2, x3, x4, y2, y3, y4, 0.0, 0.0), UVDenominatorRel(x2, x3, x4, y2, y3, y4, 1.0, 0.0),
                       UVDenominatorRel(x2, x3, x4, y2, y3, y4, 1.0, 1.0), UVDenominatorRel(x2, x3, x4, y2, y3, y4, 0.0, 1.0));
  }

  /// The corners of the unit square go to the corners of the quad, in
  /// relative coordinates.
  lemma UVToXYCornersRel(x2: real, x3: real, x4: real, y2: real, y3: real, y4: real)
    requires NoThreeCollinearRel(x2, x3, x4, y2, y3, y4)
    ensures UVDenominatorRel(x2, x3, x4, y2, y3, y4, 0.0, 0.0) != 0.0 && UVToXYRel(x2, x3, x4, y2, y3, y4, 0.0, 0.0) == Vec2(0.0, 0.0)
    ensures UVDenominatorRel(x2, x3, x4, y2, y3, y4, 1.0, 0.0) != 0.0 && UVToXYRel(x2, x3, x4, y2, y3, y4, 1.0, 0.0) == Vec2(x2, y2)
    ensures UVDenominatorRel(x2, x3, x4, y2, y3, y4, 1.0, 1.0) != 0.0 && UVToXYRel(x2, x3, x4, y2, y3, y4, 1.0, 1.0) == Vec2(x3, y3)
    ensures UVDenominatorRel(x2, x3, x4, y2, y3, y4, 0.0, 1.0) != 0.0 && UVToXYRel(x2, x3, x4, y2, y3, y4, 0.0, 1.0) == Vec2(x4, y4)
  {
    CornerFirstRel(x2, x3, x4, y2, y3, y4);
    CornerSecondRel(x2, x3, x4, y2, y3, y4);
    CornerThirdRel(x2, x3, x4, y2, y3, y4);
    CornerFourthRel(x2, x3, x4, y2, y3, y4);
  }

  lemma CornerFirstRel(x2: real, x3: real, x4: real, y2: real, y3: real, y4: real)
    requires NoThreeCollinearRel(x2, x3, x4, y2, y3, y4)
    ensures UVDenominatorRel(x2, x3, x4, y2, y3, y4, 0.0, 0.0) != 0.0 && UVToXYRel(x2, x3, x4, y2, y3, y4, 0.0, 0.0) == Vec2(0.0, 0.0)
  {
    CornerDenominatorsRel(x2, x3, x4, y2, y3, y4);
    UVToXYRelClosed(x2, x3, x4, y2, y3, y4, 0.0, 0.0);
    var p := UVToXYRel(x2, x3, x4, y2, y3, y4, 0.0, 0.0);
    CornerFirst(x2, x4, y2, y4, AreaARel(x2, x3, y2, y3), AreaBRel(x3, x4, y3, y4), UVDenominatorRel(x2, x3, x4, y2, y3, y4, 0.0, 0.0), p.x, p.y);
  }

  lemma CornerSecondRel(x2: real, x3: real, x4: real, y2: real, y3: real, y4: real)
    requires NoThreeCollinearRel(x2, x3, x4, y2, y3, y4)
    ensures UVDenominatorRel(x2, x3, x4, y2, y3, y4, 1.0, 0.0) != 0.0 && UVToXYRel(x2, x3, x4, y2, y3, y4, 1.0, 0.0) == Vec2(x2, y2)
  {
    CornerDenominatorsRel(x2, x3, x4, y2, y3, y4);
    UVToXYRelClosed(x2, x3, x4, y2, y3, y4, 1.0, 0.0);
    var p := UVToXYRel(x2, x3, x4, y2, y3, y4, 1.0, 0.0);
    CornerSecond(x2, x4, y2, y4, AreaARel(x2, x3, y2, y3), AreaBRel(x3, x4, y3, y4), UVDenominatorRel(x2, x3, x4, y2, y3, y4, 1.0, 0.0), p.x, p.y);
  }

  lemma CornerThirdRel(x2: real, x3: real, x4: real, y2: real, y3: real, y4: real)
    requires NoThreeCollinearRel(x2, x3, x4, y2, y3, y4)
    ensures UVDenominatorRel(x2, x3, x4, y2, y3, y4, 1.0, 1.0) != 0.0 && UVToXYRel(x2, x3, x4, y2, y3, y4, 1.0, 1.0) == Vec2(x3, y3)
  {
    CornerDenominatorsRel(x2, x3, x4, y2, y3, y4);
    UVToXYRelClosed(x2, x3, x4, y2, y3, y4, 1.0, 1.0);
    var p := UVToXYRel(x2, x3, x4, y2, y3, y4, 1.0, 1.0);
    CornerThird(x2, x3, x4, y2, y3, y4, AreaARel(x2, x3, y2, y3), AreaBRel(x3, x4, y3, y4), AreaCRel(x2, x4, y2, y4),
                UVDenominatorRel(x2, x3, x4, y2, y3, y4, 1.0, 1.0), p.x, p.y);
  }

  lemma CornerFourthRel(x2: real, x3: real, x4: real, y2: real, y3: real, y4: real)
    requires NoThreeCollinearRel(x2, x3, x4, y2, y3, y4)
    ensures UVDenominatorRel(x2, x3, x4, y2, y3, y4, 0.0, 1.0) != 0.0 && UVToXYRel(x2, x3, x4, y2, y3, y4, 0.0, 1.0) == Vec2(x4, y4)
  {
    CornerDenominatorsRel(x2, x3, x4, y2, y3, y4);
    UVToXYRelClosed(x2, x3, x4, y2, y3, y4, 0.0, 1.0);
    var p := UVToXYRel(x2, x3, x4, y2, y3, y4, 0.0, 1.0);
    CornerFourth(x2, x4, y2, y4, AreaARel(x2, x3, y2, y3), AreaBRel(x3, x4, y3, y4), UVDenominatorRel(x2, x3, x4, y2, y3, y4, 0.0, 1.0), p.x, p.y);
  }

  // ---------------------------------------------------------------------------
  // On quads
  // ---------------------------------------------------------------------------

  /// The four corner areas of a quad are the closed form's A, B, C and E.
  lemma NoThreeCollinearUnwrapped(quad: Quad)
    ensures var r := UnwrapQuadRel(quad);
      NoThreeCollinear(quad) <==> NoThreeCollinearRel(r.x2, r.x3, r.x4, r.y2, r.y3, r.y4)
  {
    var r := UnwrapQuadRel(quad);
    var a, b, c := Sub(quad[1], quad[0]), Sub(quad[2], quad[0]), Sub(quad[3], quad[0]);
    assert AreaA(quad) == AreaARel(r.x2, r.x3, r.y2, r.y3) == -Cross(a, b);
    assert AreaB(quad) == AreaBRel(r.x3, r.x4, r.y3, r.y4) == Cross(c, b);
    assert AreaC(quad) == AreaCRel(r.x2, r.x4, r.y2, r.y4) == Cross(c, a);
    OrientFromFirst(quad[0], quad[1], quad[2], quad[3]);
  }

  /// The orientation of three corners, expanded in their offsets from a
  /// fourth one.
  lemma OrientFromFirst(p0: Vec2, p1: Vec2, p2: Vec2, p3: Vec2)
    ensures var a, b, c := Sub(p1, p0), Sub(p2, p0), Sub(p3, p0);
      Orient(p1, p3, p2) == Cross(c, b) - Cross(c, a) - Cross(a, b)
  {
    var a, b, c := Sub(p1, p0), Sub(p2, p0), Sub(p3, p0);
    assert Sub(p3, p1) == Sub(c, a) && Sub(p2, p1) == Sub(b, a);
    CrossOfDifferences(c, a, b);
  }

  /// Cross(c - a, b - a) expanded.
  lemma CrossOfDifferences(c: Vec2, a: Vec2, b: Vec2)
    ensures Cross(Sub(c, a), Sub(b, a)) == Cross(c, b) - Cross(c, a) - Cross(a, b)
  {
    assert (c.x - a.x) * (b.y - a.y) == c.x * b.y - c.x * a.y - a.x * b.y + a.x * a.y;
    assert (c.y - a.y) * (b.x - a.x) == c.y * b.x - c.y * a.x - a.y * b.x + a.y * a.x;
  }

  /// UVToXY sends the corners (0, 0), (1, 0), (1, 1), (0, 1) of the unit
  /// square to the first, second, third and fourth corner of the quad.
  lemma UVToXYCorners(quad: Quad)
    requires NoThreeCollinear(quad)
    ensures forall i :: 0 <= i < 4 ==> UVDenominator(quad, UnitSquare[i]) != 0.0 && UVToXY(quad, UnitSquare[i]) == quad[i]
  {
    var r := UnwrapQuadRel(quad);
    NoThreeCollinearUnwrapped(quad);
    UVToXYCornersRel(r.x2, r.x3, r.x4, r.y2, r.y3, r.y4);
    assert Rewrap(r) == quad;
  }

  /// XYToUV undoes UVToXY: the point that (u, v) is sent to has the
  /// quad-relative coordinates (u, v).
  lemma XYToUVInvertsUVToXY(quad: Quad, uv: Vec2)
    requires NoThreeCollinear(quad)
    requires UVDenominator(quad, uv) != 0.0
    ensures XYToUVDefined(quad, UVToXY(quad, uv)) && XYToUV(quad, UVToXY(quad, uv)) == uv
  {
    var r := UnwrapQuadRel(quad);
    NoThreeCollinearUnwrapped(quad);
    XYToUVInvertsUVToXYRel(r.x2, r.x3, r.x4, r.y2, r.y3, r.y4, uv.x, uv.y);
    var p := UVToXYRel(r.x2, r.x3, r.x4, r.y2, r.y3, r.y4, uv.x, uv.y);
    var xy := UVToXY(quad, uv);
    assert xy.x - r.x1 == p.x && xy.y - r.y1 == p.y;
  }

  /// UVToXY undoes XYToUV: the point at the quad-relative coordinates of xy
  /// is xy itself.
  lemma UVToXYInvertsXYToUV(quad: Quad, xy: Vec2)
    requires NoThreeCollinear(quad)
    requires XYToUVDefined(quad, xy)
    ensures UVDenominator(quad, XYToUV(quad, xy)) != 0.0 && UVToXY(quad, XYToUV(quad, xy)) == xy
  {
    var r := UnwrapQuadRel(quad);
    NoThreeCollinearUnwrapped(quad);
    UVToXYInvertsXYToUVRel(r.x2, r.x3, r.x4, r.y2, r.y3, r.y4, xy.x - r.x1, xy.y - r.y1);
  }

  /// The quad-relative coordinates of the corners are the corners of the
  /// unit square; in particular the first corner is at (0, 0).
  lemma XYToUVCorners(quad: Quad)
    requires NoThreeCollinear(quad)
    ensures forall i :: 0 <= i < 4 ==> XYToUVDefined(quad, quad[i]) && XYToUV(quad, quad[i]) == UnitSquare[i]
    ensures XYToUV(quad, quad[0]) == Vec2(0.0, 0.0)
  {
    UVToXYCorners(quad);
    forall i | 0 <= i < 4
      ensures XYToUVDefined(quad, quad[i]) && XYToUV(quad, quad[i]) == UnitSquare[i]
    {
      XYToUVInvertsUVToXY(quad, UnitSquare[i]);
    }
  }

  /// On an axis-parallel rectangle the map is affine: the point at (u, v)
  /// lies the fractions u and v across the rectangle's width and height.
  lemma UVToXYOnRectangle(a: Vec2, b: Vec2, uv: Vec2)
    requires a.x != b.x && a.y != b.y
    ensures UVDenominator(MakeRect(a, b), uv) != 0.0
    ensures UVToXY(MakeRect(a, b), uv) == Vec2(a.x + uv.x * (b.x - a.x), a.y + uv.y * (b.y - a.y))
  {
    var w := b.x - a.x;
    var h := b.y - a.y;
    var d := UVDenominatorRel(w, w, 0.0, 0.0, h, h, uv.x, uv.y);
    assert d == -(w * h);
    assert w * h != 0.0;
    var p := UVToXYRel(w, w, 0.0, 0.0, h, h, uv.x, uv.y);
    assert UVNumeratorXRel(w, w, 0.0, 0.0, h, h, uv.x, uv.y) == d * (uv.x * w);
    assert UVNumeratorYRel(w, w, 0.0, 0.0, h, h, uv.x, uv.y) == d * (uv.y * h);
    assert p == Vec2(uv.x * w, uv.y * h);
  }
}
