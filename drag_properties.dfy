/// What the controller promises about a drag and about the two quads.
module DragProperties {
  import opened Wrappers
  import opened Vectors
  import opened PerspectiveMath
  import opened QuadMapping
  import opened Diagonals
  import opened ToolState
  import opened TextProjection

  // ---------------------------------------------------------------------------
  // The outcome of a drag
  // ---------------------------------------------------------------------------

  /// A drag of the origin is always committed; a corner drag is reverted
  /// exactly when the dragged corner's quad fails the convexity guard (for
  /// an outer corner the inner quad has already been re-derived by then,
  /// but the guard looks at the outer quad).  A reverted drag puts every
  /// handle back to the snapshot and leaves c1 and c2 as they were.
  lemma DragRevertsIffGuardFails(s: State, h: Handle)
    requires DragDefined(s, h)
    ensures h.Origin? ==> UpdateDrag(s, h).Committed?
    ensures h.InnerCorner? ==> (UpdateDrag(s, h).Reverted? <==> !DiagonalsCross(s.inner))
    ensures h.OuterCorner? ==> (UpdateDrag(s, h).Reverted? <==> !DiagonalsCross(s.outer))
    ensures UpdateDrag(s, h).Reverted? ==> UpdateDrag(s, h).state == ResetFeaturePositions(s)
  {
  }

  /// After every drag, committed or reverted, the snapshot agrees with the
  /// handles; after a committed one the origin handle and the rotation
  /// origin sit at the crossing of the inner quad's diagonals.
  lemma DragLeavesSnapshotInSync(s: State, h: Handle)
    requires DragDefined(s, h)
    ensures Synced(UpdateDrag(s, h).state)
    ensures UpdateDrag(s, h).Committed? ==>
      var c := UpdateDrag(s, h).state;
      DiagonalDet(c.inner) != 0.0 && c.orgf == DiagonalCenter(c.inner) && c.org == c.orgf
  {
  }

  /// Without plane mode, dragging the origin moves the inner quad by as much
  /// as the handle moved and leaves c1 and c2 alone.  When the snapshot was
  /// taken by a previous drag (the origin at the crossing of the inner
  /// quad's diagonals), the handle ends where it was dragged to.
  lemma OriginDragTranslates(s: State)
    requires DragDefined(s, Origin) && !HasOuter(s.settings)
    ensures UpdateDrag(s, Origin).Committed?
    ensures var c := UpdateDrag(s, Origin).state;
      && c.inner == Translate(s.inner, Sub(s.orgf, s.oldOrgf))
      && c.c1 == s.c1 && c.c2 == s.c2 && c.outer == s.outer
    ensures DiagonalDet(s.inner) != 0.0 && s.oldOrgf == DiagonalCenter(s.inner) ==>
      UpdateDrag(s, Origin).state.orgf == s.orgf
  {
    var d := Sub(s.orgf, s.oldOrgf);
    var moved := Translate(s.inner, d);
    assert DiagonalDet(moved) == DiagonalDet(s.inner) by { TranslateKeepsDiagonalDet(s.inner, d); }
    if DiagonalDet(s.inner) != 0.0 && s.oldOrgf == DiagonalCenter(s.inner) {
      TranslateDiagonals(s.inner, d);
    }
  }

  /// Translation keeps the determinant of the diagonals, singular or not.
  lemma TranslateKeepsDiagonalDet(q: Quad, t: Vec2)
    ensures DiagonalDet(Translate(q, t)) == DiagonalDet(q)
  {
    var r := Translate(q, t);
    assert Diag1(r) == Diag1(q);
    assert Diag2(r) == Diag2(q);
  }

  /// In plane mode, dragging the origin moves c1 and c2 by the change of the
  /// handle's position in the outer quad's coordinates, so the rectangle
  /// c1..c2 keeps its extent, and the inner quad is re-derived from it.
  lemma OriginDragInPlane(s: State)
    requires DragDefined(s, Origin) && HasOuter(s.settings)
    ensures UpdateDrag(s, Origin).Committed?
    ensures var c := UpdateDrag(s, Origin).state;
      var shift := Sub(XYToUV(s.outer, s.orgf), XYToUV(s.outer, s.oldOrgf));
      && c.c1 == Add(s.c1, shift) && c.c2 == Add(s.c2, shift)
      && Sub(c.c2, c.c1) == Sub(s.c2, s.c1)
      && c.outer == s.outer
      && c.inner == MapQuad(s.outer, MakeRect(c.c1, c.c2))
  {
  }

  /// In plane mode, a committed drag of inner corner i sets the components
  /// of c1 and c2 that corner i of the rectangle takes from them, so that
  /// this corner becomes the dragged position's coordinates in the outer
  /// quad and the opposite corner stays.  The inner quad is re-derived, and
  /// for an outer quad without three collinear corners the dragged corner
  /// stays under the pointer.
  lemma InnerCornerDragInPlane(s: State, i: Corner)
    requires DragDefined(s, InnerCorner(i)) && HasOuter(s.settings) && DiagonalsCross(s.inner)
    ensures UpdateDrag(s, InnerCorner(i)).Committed?
    ensures var c := UpdateDrag(s, InnerCorner(i)).state;
      var uv := XYToUV(s.outer, s.inner[i]);
      && (c.c1, c.c2) == CornerUV(s.c1, s.c2, i, uv)
      && MakeRect(c.c1, c.c2)[i] == uv
      && MakeRect(c.c1, c.c2)[Opposite(i)] == MakeRect(s.c1, s.c2)[Opposite(i)]
      && c.outer == s.outer
      && c.inner == MapQuad(s.outer, MakeRect(c.c1, c.c2))
    ensures NoThreeCollinear(s.outer) ==> UpdateDrag(s, InnerCorner(i)).state.inner[i] == s.inner[i]
  {
    var c := UpdateDrag(s, InnerCorner(i)).state;
    var uv := XYToUV(s.outer, s.inner[i]);
    CornerUVMovesOneCorner(s.c1, s.c2, i, uv, c.c1, c.c2);
    if NoThreeCollinear(s.outer) {
      UVToXYInvertsXYToUV(s.outer, s.inner[i]);
    }
  }

  /// Without plane mode, a committed drag of an inner corner keeps the
  /// dragged quad as it is and moves only the origin handle.
  lemma InnerCornerDragFree(s: State, i: Corner)
    requires DragDefined(s, InnerCorner(i)) && !HasOuter(s.settings) && DiagonalsCross(s.inner)
    ensures UpdateDrag(s, InnerCorner(i)).Committed?
    ensures var c := UpdateDrag(s, InnerCorner(i)).state;
      c.inner == s.inner && c.c1 == s.c1 && c.c2 == s.c2 && c.orgf == DiagonalCenter(s.inner)
  {
  }

  /// A committed drag of an outer corner keeps the dragged outer quad and c1,
  /// c2, and re-derives the inner quad from them.
  lemma OuterCornerDrag(s: State, i: Corner)
    requires DragDefined(s, OuterCorner(i)) && DiagonalsCross(s.outer)
    ensures UpdateDrag(s, OuterCorner(i)).Committed?
    ensures var c := UpdateDrag(s, OuterCorner(i)).state;
      && c.outer == s.outer && c.c1 == s.c1 && c.c2 == s.c2
      && c.inner == MapQuad(s.outer, MakeRect(s.c1, s.c2))
  {
  }

  // ---------------------------------------------------------------------------
  // The two quads
  // ---------------------------------------------------------------------------

  /// With c1 = (0, 0) and c2 = (1, 1) the inner quad is the outer quad.
  lemma UnitRectangleCopiesOuter(s: State)
    requires Valid(s) && HasOuter(s.settings) && NoThreeCollinear(s.outer)
    requires s.c1 == Vec2(0.0, 0.0) && s.c2 == Vec2(1.0, 1.0)
    ensures UpdateInnerDefined(s) && UpdateInner(s).inner == s.outer
  {
    UVToXYCorners(s.outer);
    assert MakeRect(s.c1, s.c2) == UnitSquare;
  }

  /// The point at unit-square coordinates uv of the axis-aligned rectangle
  /// from a to b.
  function OnRectangle(a: Vec2, b: Vec2, uv: Vec2): Vec2
  {
    Vec2(Lerp(a.x, b.x, uv.x), Lerp(a.y, b.y, uv.y))
  }

  /// The point the fraction t of the way from lo to hi.
  function Lerp(lo: real, hi: real, t: real): real { lo + t * (hi - lo) }

  /// On an axis-aligned rectangle the quad mapping is defined everywhere
  /// and is the rectangle's own affine map.
  lemma MapOntoRectangle(a: Vec2, b: Vec2, rect: Quad)
    requires a.x != b.x && a.y != b.y
    ensures MapDefined(MakeRect(a, b), rect)
    ensures MapQuad(MakeRect(a, b), rect) ==
      [OnRectangle(a, b, rect[0]), OnRectangle(a, b, rect[1]), OnRectangle(a, b, rect[2]), OnRectangle(a, b, rect[3])]
  {
    var q := MakeRect(a, b);
    var u0, u1, u2, u3 := rect[0], rect[1], rect[2], rect[3];
    var p0 := MapOntoRectangleAt(a, b, u0);
    var p1 := MapOntoRectangleAt(a, b, u1);
    var p2 := MapOntoRectangleAt(a, b, u2);
    var p3 := MapOntoRectangleAt(a, b, u3);
    assert MapDefined(q, rect);
    assert MapQuad(q, rect) == [p0, p1, p2, p3];
  }

  /// MapOntoRectangle at one point.
  lemma MapOntoRectangleAt(a: Vec2, b: Vec2, uv: Vec2) returns (p: Vec2)
    requires a.x != b.x && a.y != b.y
    ensures UVDenominator(MakeRect(a, b), uv) != 0.0
    ensures p == UVToXY(MakeRect(a, b), uv) == OnRectangle(a, b, uv)
  {
    UVToXYOnRectangle(a, b, uv);
    p := UVToXY(MakeRect(a, b), uv);
  }

  /// The affine map of a rectangle sends rectangles to rectangles.
  lemma OnRectangleKeepsRectangles(a: Vec2, b: Vec2, c1: Vec2, c2: Vec2)
    ensures var rect := MakeRect(c1, c2);
      [OnRectangle(a, b, rect[0]), OnRectangle(a, b, rect[1]), OnRectangle(a, b, rect[2]), OnRectangle(a, b, rect[3])]
      == MakeRect(OnRectangle(a, b, c1), OnRectangle(a, b, c2))
  {
    var rect := MakeRect(c1, c2);
    var l := [OnRectangle(a, b, rect[0]), OnRectangle(a, b, rect[1]), OnRectangle(a, b, rect[2]), OnRectangle(a, b, rect[3])];
    var r := MakeRect(OnRectangle(a, b, c1), OnRectangle(a, b, c2));
    assert l[0] == r[0] && l[1] == r[1] && l[2] == r[2] && l[3] == r[3];
  }

  /// Over an axis-aligned outer rectangle from a to b, the inner quad is the
  /// rectangle from a + c1*(b - a) to a + c2*(b - a).
  lemma InnerOfRectangle(s: State, a: Vec2, b: Vec2)
    requires Valid(s) && HasOuter(s.settings) && a.x != b.x && a.y != b.y && s.outer == MakeRect(a, b)
    ensures UpdateInnerDefined(s)
    ensures UpdateInner(s).inner == MakeRect(OnRectangle(a, b, s.c1), OnRectangle(a, b, s.c2))
  {
    MapOntoRectangle(a, b, MakeRect(s.c1, s.c2));
    OnRectangleKeepsRectangles(a, b, s.c1, s.c2);
  }

  /// Over an axis-aligned inner rectangle from a to b, the outer quad is the
  /// rectangle whose corners are the corners of OuterUV measured in it.
  lemma OuterOfRectangle(s: State, a: Vec2, b: Vec2)
    requires Valid(s) && HasOuter(s.settings) && ExtentNonzero(s.c1, s.c2)
    requires a.x != b.x && a.y != b.y && s.inner == MakeRect(a, b)
    ensures UpdateOuterDefined(s)
    ensures var uv := OuterUV(s.c1, s.c2);
      UpdateOuter(s).outer == MakeRect(OnRectangle(a, b, uv[0]), OnRectangle(a, b, uv[2]))
  {
    var uv := OuterUV(s.c1, s.c2);
    MapOntoRectangle(a, b, uv);
    OnRectangleKeepsRectangles(a, b, uv[0], uv[2]);
    assert MakeRect(uv[0], uv[2]) == uv;
  }

  /// One coordinate of the round trip on rectangles: the outer interval
  /// lo..hi derived from a..b and c1, c2 has a..b as its c1..c2 part.
  lemma RectangleRoundTrip1D(a: real, b: real, c1: real, c2: real, lo: real, hi: real)
    requires a != b && c2 - c1 != 0.0
    requires lo == a + -c1 / (c2 - c1) * (b - a) && hi == a + (1.0 - c1) / (c2 - c1) * (b - a)
    ensures lo != hi && lo + c1 * (hi - lo) == a && lo + c2 * (hi - lo) == b
  {
    var e := c2 - c1;
    var w := b - a;
    var p := -c1 / e;
    var q := (1.0 - c1) / e;
    assert p * e == -c1 && q * e == 1.0 - c1;
    assert hi - lo == (q - p) * w;
    assert (q - p) * e == 1.0;
    assert q - p != 0.0;
    assert c1 * (q - p) == -p by {
      assert (c1 * (q - p)) * e == c1 && (-p) * e == c1;
      CancelNonzero(c1 * (q - p), -p, e);
    }
    assert c2 * (q - p) == 1.0 - p by {
      assert (c2 * (q - p)) * e == c2 && (1.0 - p) * e == c2;
      CancelNonzero(c2 * (q - p), 1.0 - p, e);
    }
    assert lo + c1 * (hi - lo) == a + (p + c1 * (q - p)) * w;
    assert lo + c2 * (hi - lo) == a + (p + c2 * (q - p)) * w;
  }

  lemma CancelNonzero(x: real, y: real, e: real)
    requires e != 0.0 && x * e == y * e
    ensures x == y
  {
    assert (x - y) * e == 0.0;
  }

  /// For an axis-aligned inner rectangle, the outer quad derived from it is
  /// an axis-aligned rectangle from which the inner one is derived back.
  lemma OuterInnerRoundTripOnRectangles(s: State, a: Vec2, b: Vec2)
    requires Valid(s) && HasOuter(s.settings) && ExtentNonzero(s.c1, s.c2)
    requires a.x != b.x && a.y != b.y && s.inner == MakeRect(a, b)
    ensures UpdateOuterDefined(s) && UpdateInnerDefined(UpdateOuter(s))
    ensures UpdateInner(UpdateOuter(s)) == UpdateOuter(s)
  {
    var uv := OuterUV(s.c1, s.c2);
    OuterOfRectangle(s, a, b);
    RectangleRoundTrip(a, b, s.c1, s.c2);
    InnerOfRectangle(UpdateOuter(s), OnRectangle(a, b, uv[0]), OnRectangle(a, b, uv[2]));
  }

  /// The round trip on rectangles, on the corners alone.
  lemma RectangleRoundTrip(a: Vec2, b: Vec2, c1: Vec2, c2: Vec2)
    requires a.x != b.x && a.y != b.y && ExtentNonzero(c1, c2)
    ensures var uv := OuterUV(c1, c2);
      var lo := OnRectangle(a, b, uv[0]);
      var hi := OnRectangle(a, b, uv[2]);
      && lo.x != hi.x && lo.y != hi.y
      && OnRectangle(lo, hi, c1) == a && OnRectangle(lo, hi, c2) == b
  {
    var uv := OuterUV(c1, c2);
    var e := Sub(c2, c1);
    assert uv[0] == DivComponents(Vec2(-c1.x, -c1.y), e);
    assert uv[2] == DivComponents(Vec2(1.0 - c1.x, 1.0 - c1.y), e);
    var lo := OnRectangle(a, b, uv[0]);
    var hi := OnRectangle(a, b, uv[2]);
    RectangleRoundTrip1D(a.x, b.x, c1.x, c2.x, lo.x, hi.x);
    RectangleRoundTrip1D(a.y, b.y, c1.y, c2.y, lo.y, hi.y);
  }

  /// An axis-aligned rectangle passes the convexity guard, and its
  /// diagonals cross at its midpoint.
  lemma RectanglePassesGuard(a: Vec2, b: Vec2)
    requires a.x != b.x && a.y != b.y
    ensures DiagonalDet(MakeRect(a, b)) != 0.0 && DiagonalsCross(MakeRect(a, b))
    ensures DiagonalCenter(MakeRect(a, b)) == Vec2((a.x + b.x) / 2.0, (a.y + b.y) / 2.0)
  {
    var q := MakeRect(a, b);
    var w, h := b.x - a.x, b.y - a.y;
    assert Diag1(q) == Vec2(w, h) && Diag2(q) == Vec2(w, -h);
    assert DiagonalDet(q) == -2.0 * (w * h);
    assert w * h != 0.0;
    assert Add(q[0], Scale(0.5, Diag1(q))) == Sub(q[3], Scale(-0.5, Diag2(q)));
    DiagonalParamsUnique(q, (0.5, -0.5));
  }

  // ---------------------------------------------------------------------------
  // Defaults
  // ---------------------------------------------------------------------------

  /// The default rectangle c1..c2 has a positive extent in both coordinates,
  /// so the outer quad is defined, and it spans [-1/2, 3/2] of the inner
  /// quad's coordinates.
  lemma DefaultRectangle()
    ensures DefaultC1.x < DefaultC2.x && DefaultC1.y < DefaultC2.y
    ensures ExtentNonzero(DefaultC1, DefaultC2)
    ensures OuterUV(DefaultC1, DefaultC2) == MakeRect(Vec2(-0.5, -0.5), Vec2(1.5, 1.5))
  {
  }

  // ---------------------------------------------------------------------------
  // Refresh from the line
  // ---------------------------------------------------------------------------

  /// For a line without rotation, shear or scaling whose text has a nonzero
  /// width and height, a refresh puts the inner quad on the text's box and
  /// the origin handle in the middle of the box.
  lemma RefreshCentersOriginOnText(s: State, l: Line, rotate: Vec3 -> Vec3)
    requires Valid(s) && !HasOuter(s.settings)
    requires forall v :: rotate(v) == v
    requires l.fax == 0.0 && l.fay == 0.0 && l.scale == Vec2(100.0, 100.0)
    requires l.width != 0.0 && l.height != 0.0
    ensures RefreshDefined(s, Some(l), rotate)
    ensures var topLeft := Add(l.position, AnchorOffset(l));
      var r := Refresh(s, Some(l), rotate);
      && r.inner == MakeRect(topLeft, Add(topLeft, Vec2(l.width, l.height)))
      && r.orgf == Vec2(topLeft.x + l.width / 2.0, topLeft.y + l.height / 2.0)
      && r.org == LineOrigin(l)
  {
    var topLeft := Add(l.position, AnchorOffset(l));
    var bottomRight := Add(topLeft, Vec2(l.width, l.height));
    UntransformedLineGivesTextBox(l, rotate);
    RectanglePassesGuard(topLeft, bottomRight);
  }
}
