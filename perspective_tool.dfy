/// The perspective tool as the object the video display drives: its fields
/// are the transform coefficients read from the active line and the
/// positions of its handles, and its methods update them in place.
///
/// Each method is proved against the function of the same name on the
/// tool's state (module ToolState): after the call, State() is that
/// function of the state before it.  The handles are plain positions here;
/// which handle is dragged is given by its role.
module VisualToolPerspective {
  import opened Wrappers
  import opened Vectors
  import opened PerspectiveMath
  import opened Diagonals
  import opened Alignment
  import opened TextProjection
  import TS = ToolState

  /// Which quad a drag changed, if any.
  datatype ChangedQuad = NoQuad | InnerQuad | OuterQuad

  /// The offset of the text's top-left corner from the anchor, by the
  /// alignment's column and row in C's truncating arithmetic.  The left
  /// column is given its evidently intended offset 0, which the source
  /// leaves unassigned.
  method TextOffset(align: int, width: real, height: real) returns (textLeft: real, textTop: real)
    ensures textLeft == TextLeft(align, width) && textTop == TextTop(align, height)
    ensures 1 <= align <= 9 ==> textLeft == -width * (Column(align) as real) / 2.0
  {
    textLeft, textTop := 0.0, 0.0;
    var column := CRem3(align - 1);
    if column == 1 {
      textLeft := -width / 2.0;
    } else if column == 2 {
      textLeft := -width;
    }
    var row := CDiv3(align - 1);
    if row == 0 {
      textTop := -height;
    } else if row == 1 {
      textTop := -height / 2.0;
    }
    if 1 <= align <= 9 {
      AnchorOnNumpadGrid(align, width, height, 0.0);
    }
  }

  /// The convexity check of a drag: the crossing of the quad's diagonals
  /// lies on both of them between their end points.
  method ConvexityGuard(quad: Quad) returns (convex: bool)
    requires DiagonalDet(quad) != 0.0
    ensures convex == DiagonalsCross(quad)
  {
    var diag1 := Sub(quad[2], quad[0]);
    var diag2 := Sub(quad[1], quad[3]);
    var b := Sub(quad[3], quad[0]);
    var la := Solve2x2(diag1.x, diag2.x, diag1.y, diag2.y, b.x, b.y);
    convex := !(la.0 < 0.0 || la.0 > 1.0 || -la.1 < 0.0 || -la.1 > 1.0);
  }

  class PerspectiveTool {
    /// The sub-tool flags.
    var settings: bv32

    // The transform coefficients of the active line, used to draw the grid.
    var angleX: real
    var angleY: real
    var angleZ: real
    var fax: real
    var fay: real
    var align: int
    var faxShiftFactor: real
    var textWidth: real
    var textHeight: real
    var fsc: Vec2
    var org: Vec2
    var pos: Vec2

    /// The inner quad as a rectangle in the outer quad's unit square.
    var c1: Vec2
    var c2: Vec2

    // The handles and their snapshot.
    var orgf: Vec2
    var oldOrgf: Vec2
    var oldInner: seq<Vec2>
    var oldOuter: seq<Vec2>
    var innerCorners: seq<Vec2>
    var outerCorners: seq<Vec2>

    /// The inner quad and the snapshot have four points each.
    ghost predicate Sized()
      reads this
    {
      |innerCorners| == 4 && |oldInner| == 4 && |oldOuter| == 4
    }

    /// ... and the outer quad has four exactly in plane mode.
    ghost predicate Valid()
      reads this
    {
      Sized() && |outerCorners| == (if TS.HasOuter(settings) then 4 else 0)
    }

    /// The handles, c1 and c2, the snapshot and the rotation origin.
    ghost function State(): TS.State
      reads this
      requires Sized()
    {
      TS.State(settings, c1, c2, orgf, oldOrgf, innerCorners, outerCorners, oldInner, oldOuter, org)
    }

    predicate HasOuter()
      reads this
    {
      TS.HasOuter(settings)
    }

    /// A new tool: every coefficient zero, the default rectangle, and the
    /// handles made and placed from the active line.  The snapshot is sized
    /// before the handles are made rather than after, which changes nothing
    /// since making them does not read it.
    constructor(line: Option<Line>, rotate: Vec3 -> Vec3)
      requires TS.MakeFeaturesDefined(TS.Initial, line, rotate)
      ensures Valid() && State() == TS.MakeFeatures(TS.Initial, line, rotate)
      ensures line.None? ==>
        && angleX == 0.0 && angleY == 0.0 && angleZ == 0.0 && fax == 0.0 && fay == 0.0
        && align == 0 && faxShiftFactor == 0.0 && textWidth == 0.0 && textHeight == 0.0
    {
      settings := 0;
      angleX, angleY, angleZ := 0.0, 0.0, 0.0;
      fax, fay := 0.0, 0.0;
      align := 0;
      faxShiftFactor := 0.0;
      textWidth, textHeight := 0.0, 0.0;
      fsc, org, pos := TS.Unset, TS.Unset, TS.Unset;
      c1, c2 := TS.DefaultC1, TS.DefaultC2;
      orgf, oldOrgf := TS.Unset, TS.Unset;
      innerCorners, outerCorners := TS.UnsetQuad, [];
      oldInner, oldOuter := TS.UnsetQuad, TS.UnsetQuad;
      new;
      MakeFeatures(line, rotate);
    }

    /// Switches sub-tool and makes the handles anew.
    method SetSubTool(subtool: bv32, line: Option<Line>, rotate: Vec3 -> Vec3)
      requires Sized() && TS.MakeFeaturesDefined(State().(settings := subtool), line, rotate)
      modifies this
      ensures Valid() && State() == TS.SetSubTool(old(State()), subtool, line, rotate)
    {
      settings := subtool;
      MakeFeatures(line, rotate);
    }

    /// Makes the origin handle, four inner corners and, in plane mode, four
    /// outer corners, then places them from the active line.
    method MakeFeatures(line: Option<Line>, rotate: Vec3 -> Vec3)
      requires Sized() && TS.MakeFeaturesDefined(State(), line, rotate)
      modifies this
      ensures Valid() && State() == TS.MakeFeatures(old(State()), line, rotate)
      ensures line.None? ==>
        && angleX == old(angleX) && angleY == old(angleY) && angleZ == old(angleZ)
        && fax == old(fax) && fay == old(fay) && align == old(align)
        && faxShiftFactor == old(faxShiftFactor) && textWidth == old(textWidth) && textHeight == old(textHeight)
    {
      ClearFeatures();
      TextToPersp(line, rotate);
    }

    /// The first part of MakeFeatures: fresh, unplaced handles.
    method ClearFeatures()
      requires Sized()
      modifies this`innerCorners, this`outerCorners, this`orgf
      ensures Sized() && State() == TS.ClearFeatures(old(State()))
    {
      innerCorners := [];
      outerCorners := [];
      orgf := TS.Unset;
      for i := 0 to 4
        modifies this`innerCorners, this`outerCorners
        invariant innerCorners == TS.UnsetQuad[..i]
        invariant outerCorners == if HasOuter() then TS.UnsetQuad[..i] else []
      {
        innerCorners := innerCorners + [TS.Unset];
        if HasOuter() {
          outerCorners := outerCorners + [TS.Unset];
        }
      }
    }

    /// Reads the transform of the active line and places the inner corners
    /// where the line's text is drawn; in plane mode the outer quad follows.
    method TextToPersp(line: Option<Line>, rotate: Vec3 -> Vec3)
      requires Sized() && TS.TextToPerspDefined(State(), line, rotate)
      modifies this
      ensures Valid() && State() == TS.TextToPersp(old(State()), line, rotate)
      ensures line.None? ==> unchanged(this)
      ensures line.Some? ==> var l := line.value;
        && pos == l.position && org == LineOrigin(l)
        && angleX == l.angleX && angleY == l.angleY && angleZ == l.angleZ
        && fax == l.fax && fay == l.fay && fsc == l.scale && align == l.alignment
        && faxShiftFactor == FaxShiftFactor(l.alignment, l.fontSize)
        && textWidth == l.width && textHeight == l.height
    {
      if line.None? {
        return;
      }
      FromLine(line.value, rotate);
    }

    /// TextToPersp for a present line.
    method FromLine(l: Line, rotate: Vec3 -> Vec3)
      requires Sized() && ProjectionDefined(l, rotate)
      requires TS.UpdateOuterDefined(State().(org := LineOrigin(l), inner := TextCorners(l, rotate)))
      modifies this
      ensures Valid() && State() == TS.UpdateOuter(old(State()).(org := LineOrigin(l), inner := TextCorners(l, rotate)))
      ensures pos == l.position && org == LineOrigin(l)
      ensures angleX == l.angleX && angleY == l.angleY && angleZ == l.angleZ
      ensures fax == l.fax && fay == l.fay && fsc == l.scale && align == l.alignment
      ensures faxShiftFactor == FaxShiftFactor(l.alignment, l.fontSize)
      ensures textWidth == l.width && textHeight == l.height
    {
      ReadTransform(l);
      var textLeft, textTop := TextOffset(align, textWidth, textHeight);
      PlaceInnerCorners(l, rotate, textLeft, textTop);
      UpdateOuter();
    }

    /// The first part of TextToPersp: the transform coefficients are read
    /// from the line, the origin defaulting to the position, and the shear
    /// shift factor is chosen by the alignment's row.
    method ReadTransform(l: Line)
      modifies this`pos, this`org, this`angleX, this`angleY, this`angleZ, this`fax, this`fay
      modifies this`fsc, this`align, this`faxShiftFactor, this`textWidth, this`textHeight
      ensures pos == l.position && org == LineOrigin(l)
      ensures angleX == l.angleX && angleY == l.angleY && angleZ == l.angleZ
      ensures fax == l.fax && fay == l.fay && fsc == l.scale && align == l.alignment
      ensures faxShiftFactor == FaxShiftFactor(l.alignment, l.fontSize)
      ensures textWidth == l.width && textHeight == l.height
    {
      pos := l.position;
      org := match l.origin case Some(o) => o case None => pos;
      angleX, angleY, angleZ := l.angleX, l.angleY, l.angleZ;
      fax, fay := l.fax, l.fay;
      fsc := l.scale;
      var fs := l.fontSize;
      align := l.alignment;
      if align == 1 || align == 2 || align == 3 {
        faxShiftFactor := fs;
      } else if align == 4 || align == 5 || align == 6 {
        faxShiftFactor := fs / 2.0;
      } else {
        faxShiftFactor := 0.0;
      }
      textWidth, textHeight := l.width, l.height;
    }

    /// The loop of TextToPersp: each corner of the text's box is sheared,
    /// moved to the anchor, scaled, moved relative to the origin, rotated,
    /// projected and moved back, with the coefficients just read from l.
    method PlaceInnerCorners(l: Line, rotate: Vec3 -> Vec3, textLeft: real, textTop: real)
      requires Sized() && ProjectionDefined(l, rotate)
      requires Vec2(textLeft, textTop) == AnchorOffset(l)
      requires pos == l.position && org == LineOrigin(l)
      requires fax == l.fax && fay == l.fay && fsc == l.scale
      requires textWidth == l.width && textHeight == l.height
      modifies this`innerCorners
      ensures Sized() && innerCorners == TextCorners(l, rotate)
    {
      var textRect := MakeRect(Vec2(0.0, 0.0), Vec2(textWidth, textHeight));
      for i := 0 to 4
        invariant |innerCorners| == 4
        invariant forall j :: 0 <= j < i ==> innerCorners[j] == ProjectedCorner(l, rotate, j)
      {
        var r := ProjectCorner(l, rotate, textLeft, textTop, i, textRect[i]);
        innerCorners := innerCorners[i := r];
      }
      assert innerCorners == TextCorners(l, rotate);
    }

    /// One pass of that loop: corner p of the text's box to the screen.
    method ProjectCorner(l: Line, rotate: Vec3 -> Vec3, textLeft: real, textTop: real, i: Corner, p: Vec2) returns (r: Vec2)
      requires ProjectionDefined(l, rotate)
      requires Vec2(textLeft, textTop) == AnchorOffset(l)
      requires pos == l.position && org == LineOrigin(l)
      requires fax == l.fax && fay == l.fay && fsc == l.scale
      requires p == MakeRect(Vec2(0.0, 0.0), Vec2(l.width, l.height))[i]
      ensures r == ProjectedCorner(l, rotate, i)
    {
      // Shear, move to the anchor, scale, and move relative to the origin.
      var p1 := Add(Shear(p, fax, fay), Vec2(textLeft, textTop));
      var p2 := ScalePercent(p1, fsc);
      var p3 := Sub(Add(p2, pos), org);
      assert p3 == PlanarCorner(l, i);
      // Rotate, project through the pinhole, and move back to the origin.
      var q := rotate(Lift(p3, 0.0));
      r := Add(Project(q), org);
    }

    /// Re-derives the inner corners from the outer quad and c1, c2.
    method UpdateInner()
      requires Sized() && TS.UpdateInnerDefined(State())
      modifies this`innerCorners
      ensures Valid() && State() == TS.UpdateInner(old(State()))
    {
      var uv := MakeRect(c1, c2);
      var quad := FeaturePositions(outerCorners);
      assert quad == outerCorners;
      for i := 0 to 4
        invariant |innerCorners| == 4
        invariant forall j :: 0 <= j < i ==> innerCorners[j] == UVToXY(quad, uv[j])
      {
        innerCorners := innerCorners[i := UVToXY(quad, uv[i])];
      }
      assert innerCorners == TS.MapQuad(quad, uv);
    }

    /// In plane mode, re-derives the outer corners from the inner quad and
    /// c1, c2.
    method UpdateOuter()
      requires Sized() && TS.UpdateOuterDefined(State())
      modifies this`outerCorners
      ensures Valid() && State() == TS.UpdateOuter(old(State()))
    {
      if !HasOuter() {
        return;
      }
      var uv := TS.OuterUV(c1, c2);
      var quad := FeaturePositions(innerCorners);
      assert quad == innerCorners;
      for i := 0 to 4
        invariant |outerCorners| == 4
        invariant forall j :: 0 <= j < i ==> outerCorners[j] == UVToXY(quad, uv[j])
      {
        outerCorners := outerCorners[i := UVToXY(quad, uv[i])];
      }
      assert outerCorners == TS.MapQuad(quad, uv);
    }

    /// Puts every handle back to its snapshot position.
    method ResetFeaturePositions()
      requires Valid()
      modifies this`innerCorners, this`outerCorners, this`orgf
      ensures Valid() && State() == TS.ResetFeaturePositions(old(State()))
    {
      for i := 0 to 4
        invariant Valid()
        invariant forall j :: 0 <= j < i ==> innerCorners[j] == oldInner[j]
        invariant forall j :: i <= j < 4 ==> innerCorners[j] == old(innerCorners[j])
        invariant HasOuter() ==> forall j :: 0 <= j < i ==> outerCorners[j] == oldOuter[j]
        invariant HasOuter() ==> forall j :: i <= j < 4 ==> outerCorners[j] == old(outerCorners[j])
        invariant !HasOuter() ==> outerCorners == old(outerCorners)
      {
        innerCorners := innerCorners[i := oldInner[i]];
        if HasOuter() {
          outerCorners := outerCorners[i := oldOuter[i]];
        }
      }
      orgf := oldOrgf;
    }

    /// Takes the snapshot from the handles.
    method SaveFeaturePositions()
      requires Valid()
      modifies this`oldInner, this`oldOuter, this`oldOrgf
      ensures Valid() && State() == TS.SaveFeaturePositions(old(State()))
    {
      for i := 0 to 4
        invariant Valid()
        invariant forall j :: 0 <= j < i ==> oldInner[j] == innerCorners[j]
        invariant forall j :: i <= j < 4 ==> oldInner[j] == old(oldInner[j])
        invariant HasOuter() ==> forall j :: 0 <= j < i ==> oldOuter[j] == outerCorners[j]
        invariant forall j :: i <= j < 4 ==> oldOuter[j] == old(oldOuter[j])
        invariant !HasOuter() ==> oldOuter == old(oldOuter)
      {
        oldInner := oldInner[i := innerCorners[i]];
        if HasOuter() {
          oldOuter := oldOuter[i := outerCorners[i]];
        }
      }
      oldOrgf := orgf;
    }

    /// Puts the origin handle at the crossing of the inner quad's diagonals
    /// and takes the snapshot.
    method SetFeaturePositions()
      requires Valid() && DiagonalDet(innerCorners) != 0.0
      modifies this`orgf, this`oldInner, this`oldOuter, this`oldOrgf
      ensures Valid() && State() == TS.SetFeaturePositions(old(State()))
    {
      var diag1 := Sub(innerCorners[2], innerCorners[0]);
      var diag2 := Sub(innerCorners[1], innerCorners[3]);
      var b := Sub(innerCorners[3], innerCorners[0]);
      var la := Solve2x2(diag1.x, diag2.x, diag1.y, diag2.y, b.x, b.y);
      orgf := Add(innerCorners[0], Scale(la.0, diag1));
      SaveFeaturePositions();
    }

    /// The part of the inverse solver this model keeps: the rotation origin
    /// is put at the crossing of the inner quad's diagonals.
    method InnerToText()
      requires Sized() && DiagonalDet(innerCorners) != 0.0
      modifies this`org
      ensures State() == TS.InnerToText(old(State()))
    {
      var q1, q2, q3, q4 := innerCorners[0], innerCorners[1], innerCorners[2], innerCorners[3];
      var diag1 := Sub(q3, q1);
      var diag2 := Sub(q2, q4);
      var b := Sub(q4, q1);
      var la := Solve2x2(diag1.x, diag2.x, diag1.y, diag2.y, b.x, b.y);
      var center := Add(q1, Scale(la.0, diag1));
      org := center;
    }

    /// Re-reads the handles from the active line and takes the snapshot.
    method DoRefresh(line: Option<Line>, rotate: Vec3 -> Vec3)
      requires Sized() && TS.RefreshDefined(State(), line, rotate)
      modifies this
      ensures Valid() && State() == TS.Refresh(old(State()), line, rotate)
    {
      TextToPersp(line, rotate);
      SetFeaturePositions();
    }

    /// The first step of a drag for the origin handle.
    method DragOrigin()
      requires Valid() && TS.DragOriginDefined(State())
      modifies this`c1, this`c2, this`innerCorners
      ensures Valid() && State() == TS.DragOrigin(old(State()))
    {
      if HasOuter() {
        var quad := FeaturePositions(outerCorners);
        assert quad == outerCorners;
        var olduv := XYToUV(quad, oldOrgf);
        var newuv := XYToUV(quad, orgf);
        c1 := Sub(Add(c1, newuv), olduv);
        c2 := Sub(Add(c2, newuv), olduv);
        assert State() == TS.ShiftUV(old(State()));
        UpdateInner();
      } else {
        var diff := Sub(orgf, oldOrgf);
        for i := 0 to 4
          modifies this`innerCorners
          invariant |innerCorners| == 4
          invariant forall j :: 0 <= j < i ==> innerCorners[j] == Add(old(innerCorners[j]), diff)
          invariant forall j :: i <= j < 4 ==> innerCorners[j] == old(innerCorners[j])
        {
          innerCorners := innerCorners[i := Add(innerCorners[i], diff)];
        }
        assert old(innerCorners) == old(State()).inner;
        forall j | 0 <= j < 4
          ensures innerCorners[j] == Translate(old(State()).inner, diff)[j]
        {
        }
        assert innerCorners == Translate(old(State()).inner, diff);
        assert State() == old(State()).(inner := Translate(old(State()).inner, diff));
      }
    }

    /// The dragged outer corner re-derives the inner quad; the result names
    /// the quad a corner drag changed.
    method FollowDraggedCorner(h: TS.Handle) returns (changed: ChangedQuad)
      requires Valid() && TS.Exists(State(), h)
      requires h.OuterCorner? ==> TS.UpdateInnerDefined(State())
      modifies this`innerCorners
      ensures Valid() && State() == if h.OuterCorner? then TS.UpdateInner(old(State())) else old(State())
      ensures changed == match h case Origin => NoQuad case InnerCorner(_) => InnerQuad case OuterCorner(_) => OuterQuad
    {
      changed := NoQuad;
      ghost var s1 := State();
      for i := 0 to 4
        invariant Valid()
        invariant changed == if h.OuterCorner? && h.i < i then OuterQuad else if h.InnerCorner? && h.i < i then InnerQuad else NoQuad
        invariant State() == if h.OuterCorner? && h.i < i then TS.UpdateInner(s1) else s1
      {
        if HasOuter() && h == TS.OuterCorner(i) {
          changed := OuterQuad;
          UpdateInner();
        } else if h == TS.InnerCorner(i) {
          changed := InnerQuad;
        }
      }
    }

    /// In plane mode, a dragged inner corner rewrites the matching
    /// components of c1 and c2, and the inner quad is re-derived.
    method PlaneCornerToUV(h: TS.Handle)
      requires Valid() && TS.AfterGuardDefined(State(), h)
      modifies this`c1, this`c2, this`innerCorners
      ensures Valid() && State() == TS.AfterGuard(old(State()), h)
    {
      ghost var s2 := State();
      ghost var target := TS.AfterGuard(s2, h);
      for i := 0 to 4
        invariant Valid()
        invariant State() == if h.InnerCorner? && HasOuter() && h.i < i then target else s2
      {
        if HasOuter() && h == TS.InnerCorner(i) {
          MoveInnerCornerUV(i);
        }
      }
    }

    /// Inner corner i, dragged in plane mode, sets the components of c1 and
    /// c2 that it takes from them to its position in the outer quad's unit
    /// square; the inner quad is then re-derived.
    method MoveInnerCornerUV(i: Corner)
      requires Valid() && HasOuter() && TS.AfterGuardDefined(State(), TS.InnerCorner(i))
      modifies this`c1, this`c2, this`innerCorners
      ensures Valid() && State() == TS.AfterGuard(old(State()), TS.InnerCorner(i))
    {
      assert FeaturePositions(outerCorners) == outerCorners;
      var newuv := XYToUV(FeaturePositions(outerCorners), innerCorners[i]);
      SetCornerUV(i, newuv);
      UpdateInner();
    }

    /// Corner i of the rectangle c1..c2 moved to uv: the components of c1
    /// and c2 that the corner takes from them are rewritten.
    method SetCornerUV(i: Corner, uv: Vec2)
      modifies this`c1, this`c2
      ensures (c1, c2) == TS.CornerUV(old(c1), old(c2), i, uv)
    {
      c1 := Vec2(if i == 0 || i == 3 then uv.x else c1.x, if i < 2 then uv.y else c1.y);
      c2 := Vec2(if i == 0 || i == 3 then c2.x else uv.x, if i < 2 then c2.y else uv.y);
    }

    /// Called after the framework moved handle h: the other handles follow,
    /// and if the changed quad is no longer convex every handle goes back
    /// to the snapshot; otherwise the rotation origin is updated and the
    /// snapshot taken.
    method UpdateDrag(h: TS.Handle)
      requires Valid() && TS.DragDefined(State(), h)
      modifies this`c1, this`c2, this`innerCorners, this`outerCorners, this`orgf
      modifies this`oldOrgf, this`oldInner, this`oldOuter, this`org
      ensures Valid() && State() == TS.UpdateDrag(old(State()), h).state
    {
      ghost var s := State();
      ghost var s2 := TS.BeforeGuard(s, h);
      if h == TS.Origin {
        DragOrigin();
      }

      var changed := FollowDraggedCorner(h);
      assert State() == s2;
      if changed != NoQuad {
        var quad := if changed == OuterQuad then FeaturePositions(outerCorners) else FeaturePositions(innerCorners);
        assert TS.ChangedQuad(s2, h).Some? && TS.ChangedQuad(s2, h).value == quad;
        var convex := ConvexityGuard(quad);
        if !convex {
          ResetFeaturePositions();
          return;
        }
      }
      Commit(h);
    }

    /// The drag once the guard has let it through: the plane-mode rewrite
    /// of c1 and c2, the new rotation origin, and a fresh snapshot.
    method Commit(h: TS.Handle)
      requires Valid() && TS.AfterGuardDefined(State(), h) && DiagonalDet(TS.AfterGuard(State(), h).inner) != 0.0
      modifies this`c1, this`c2, this`innerCorners, this`orgf, this`oldOrgf, this`oldInner, this`oldOuter, this`org
      ensures Valid() && State() == TS.SetFeaturePositions(TS.InnerToText(TS.AfterGuard(old(State()), h)))
    {
      PlaneCornerToUV(h);
      InnerToText();
      SetFeaturePositions();
    }
  }
}
