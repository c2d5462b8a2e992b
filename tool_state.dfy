/// The perspective tool's controller, as functions on its state.
///
/// The tool shows an inner quad (where the text is drawn) and, in plane
/// mode, an outer quad; the inner quad sits inside the outer one as the
/// rectangle from c1 to c2 in the outer quad's unit-square coordinates.  A
/// drag moves one handle (the origin or a corner); UpdateDrag then
/// re-derives the other handles, checks that the changed quad is still
/// convex and either commits the new positions (saving them as the
/// snapshot) or puts every handle back where the snapshot has it.
module ToolState {
  import opened Wrappers
  import opened Vectors
  import opened PerspectiveMath
  import opened Diagonals
  import opened TextProjection

  // ---------------------------------------------------------------------------
  // Sub-tool flags
  // ---------------------------------------------------------------------------

  /// Plane mode: the outer quad is shown and drags follow it.
  const PerspPlane: bv32 := 1 << 0
  /// The grid is drawn.
  const PerspGrid: bv32 := 2 << 1
  /// One past the last flag.
  const PerspLast: bv32 := 2 << 2

  predicate HasOuter(settings: bv32) { settings & PerspPlane != 0 }

  /// A nonzero flag with exactly one bit set.
  predicate SingleBit(flag: bv32) { flag != 0 && flag & (flag - 1) == 0 }

  /// The flags are distinct single bits below the end marker, so plane mode
  /// depends on the plane bit alone: toggling the grid leaves it alone.
  lemma SettingFlags(settings: bv32)
    ensures PerspPlane == 1 && PerspGrid == 4 && PerspLast == 8
    ensures SingleBit(PerspPlane) && SingleBit(PerspGrid) && PerspPlane & PerspGrid == 0
    ensures PerspPlane < PerspLast && PerspGrid < PerspLast
    ensures HasOuter(settings ^ PerspGrid) == HasOuter(settings)
    ensures HasOuter(settings ^ PerspPlane) == !HasOuter(settings)
    ensures !HasOuter(0)
  {
  }

  // ---------------------------------------------------------------------------
  // State
  // ---------------------------------------------------------------------------

  function Pow2(n: nat): (r: real)
    ensures r >= 1.0
  {
    if n == 0 then 1.0 else 2.0 * Pow2(n - 1)
  }

  /// The position of a handle that has not been placed yet: a default point
  /// has the smallest normal single-precision float in both coordinates.
  const Unset: Vec2 := Vec2(1.0 / Pow2(126), 1.0 / Pow2(126))

  /// The default corners of the inner quad's rectangle in the outer quad's
  /// unit-square coordinates.
  const DefaultC1: Vec2 := Vec2(0.25, 0.25)
  const DefaultC2: Vec2 := Vec2(0.75, 0.75)

  /// The handles' positions, the unit-square rectangle c1..c2 of the inner
  /// quad inside the outer one, the snapshot a failed drag returns to, and
  /// the rotation origin written back to the subtitle line.
  datatype State = State(
    settings: bv32,
    c1: Vec2, c2: Vec2,
    orgf: Vec2, oldOrgf: Vec2,
    inner: Quad, outer: seq<Vec2>,
    oldInner: Quad, oldOuter: Quad,
    org: Vec2)

  /// The outer quad exists exactly in plane mode.
  predicate Valid(s: State) { |s.outer| == if HasOuter(s.settings) then 4 else 0 }

  /// The snapshot a failed drag returns to.
  function Snapshot(s: State): (Quad, Quad, Vec2) { (s.oldInner, s.oldOuter, s.oldOrgf) }

  /// The snapshot agrees with the handles.
  predicate Synced(s: State)
  {
    s.oldInner == s.inner && s.oldOrgf == s.orgf && (HasOuter(s.settings) ==> s.oldOuter == s.outer)
  }

  // ---------------------------------------------------------------------------
  // Deriving one quad from the other
  // ---------------------------------------------------------------------------

  /// Every corner of rect has a nonzero denominator in quad's mapping.
  predicate MapDefined(quad: Quad, rect: Quad)
  {
    forall i: Corner :: UVDenominator(quad, rect[i]) != 0.0
  }

  /// The image under quad's mapping of the four corners of rect.
  function MapQuad(quad: Quad, rect: Quad): (r: Quad)
    requires MapDefined(quad, rect)
    ensures forall i: Corner :: r[i] == UVToXY(quad, rect[i])
  {
    [UVToXY(quad, rect[0]), UVToXY(quad, rect[1]), UVToXY(quad, rect[2]), UVToXY(quad, rect[3])]
  }

  predicate UpdateInnerDefined(s: State)
  {
    Valid(s) && HasOuter(s.settings) && MapDefined(s.outer, MakeRect(s.c1, s.c2))
  }

  /// The inner quad re-derived from the outer one and c1, c2.
  function UpdateInner(s: State): (r: State)
    requires UpdateInnerDefined(s)
    ensures Valid(r) && r.inner == MapQuad(s.outer, MakeRect(s.c1, s.c2))
    ensures r == s.(inner := r.inner)
  {
    s.(inner := MapQuad(s.outer, MakeRect(s.c1, s.c2)))
  }

  /// The rectangle c1..c2 has a nonzero extent in both coordinates.
  predicate ExtentNonzero(c1: Vec2, c2: Vec2) { c2.x - c1.x != 0.0 && c2.y - c1.y != 0.0 }

  /// The outer quad's corners in the inner quad's unit-square coordinates:
  /// the rectangle from -c1/(c2 - c1) to (1 - c1)/(c2 - c1).
  function OuterUV(c1: Vec2, c2: Vec2): Quad
    requires ExtentNonzero(c1, c2)
  {
    MakeRect(DivComponents(Vec2(-c1.x, -c1.y), Sub(c2, c1)), DivComponents(Vec2(1.0 - c1.x, 1.0 - c1.y), Sub(c2, c1)))
  }

  predicate UpdateOuterDefined(s: State)
  {
    Valid(s) && (HasOuter(s.settings) ==> ExtentNonzero(s.c1, s.c2) && MapDefined(s.inner, OuterUV(s.c1, s.c2)))
  }

  /// In plane mode, the outer quad re-derived from the inner one; otherwise
  /// nothing.
  function UpdateOuter(s: State): (r: State)
    requires UpdateOuterDefined(s)
    ensures Valid(r) && r.inner == s.inner && r.c1 == s.c1 && r.c2 == s.c2
    ensures !HasOuter(s.settings) ==> r == s
    ensures HasOuter(s.settings) ==> r == s.(outer := MapQuad(s.inner, OuterUV(s.c1, s.c2)))
  {
    if !HasOuter(s.settings) then s
    else s.(outer := MapQuad(s.inner, OuterUV(s.c1, s.c2)))
  }

  // ---------------------------------------------------------------------------
  // Snapshot
  // ---------------------------------------------------------------------------

  /// Every handle back to its snapshot position.
  function ResetFeaturePositions(s: State): (r: State)
    requires Valid(s)
    ensures Valid(r) && r.inner == s.oldInner && r.orgf == s.oldOrgf
    ensures r.outer == (if HasOuter(s.settings) then s.oldOuter else s.outer)
    ensures r == s.(inner := r.inner, outer := r.outer, orgf := r.orgf)
  {
    s.(inner := s.oldInner, outer := if HasOuter(s.settings) then s.oldOuter else s.outer, orgf := s.oldOrgf)
  }

  /// The snapshot taken from the handles.
  function SaveFeaturePositions(s: State): (r: State)
    requires Valid(s)
    ensures Valid(r) && Synced(r)
    ensures r == s.(oldInner := r.oldInner, oldOuter := r.oldOuter, oldOrgf := r.oldOrgf)
    ensures !HasOuter(s.settings) ==> r.oldOuter == s.oldOuter
  {
    s.(oldInner := s.inner, oldOuter := if HasOuter(s.settings) then s.outer else s.oldOuter, oldOrgf := s.orgf)
  }

  /// The origin handle moved to the crossing of the inner quad's diagonals,
  /// then the snapshot taken.
  function SetFeaturePositions(s: State): (r: State)
    requires Valid(s) && DiagonalDet(s.inner) != 0.0
    ensures Valid(r) && Synced(r) && r.orgf == DiagonalCenter(s.inner)
    ensures r.inner == s.inner && r.outer == s.outer && r.c1 == s.c1 && r.c2 == s.c2 && r.settings == s.settings
    ensures r == s.(orgf := r.orgf, oldInner := r.oldInner, oldOuter := r.oldOuter, oldOrgf := r.oldOrgf)
    ensures !HasOuter(s.settings) ==> r.oldOuter == s.oldOuter
  {
    SaveFeaturePositions(s.(orgf := DiagonalCenter(s.inner)))
  }

  /// Right after a snapshot a reset changes nothing, and a reset leaves the
  /// handles in agreement with the snapshot.
  lemma SnapshotRoundTrip(s: State)
    requires Valid(s)
    ensures ResetFeaturePositions(SaveFeaturePositions(s)) == SaveFeaturePositions(s)
    ensures Synced(ResetFeaturePositions(s))
    ensures Synced(s) <==> SaveFeaturePositions(s) == s
    ensures Synced(s) <==> ResetFeaturePositions(s) == s
  {
  }

  // ---------------------------------------------------------------------------
  // UpdateDrag
  // ---------------------------------------------------------------------------

  /// The handle being dragged, by its role.
  datatype Handle = Origin | InnerCorner(i: Corner) | OuterCorner(i: Corner)

  /// Outer corners exist only in plane mode.
  predicate Exists(s: State, h: Handle) { h.OuterCorner? ==> HasOuter(s.settings) }

  /// The result of a drag: the new positions saved as the snapshot, or the
  /// positions put back to the snapshot.
  datatype DragOutcome = Committed(state: State) | Reverted(state: State)

  /// c1 and c2 moved by the change in the origin handle's position, in the
  /// outer quad's unit-square coordinates.
  function ShiftUV(s: State): (r: State)
    requires Valid(s) && HasOuter(s.settings)
    requires XYToUVDefined(s.outer, s.oldOrgf) && XYToUVDefined(s.outer, s.orgf)
    ensures r == s.(c1 := r.c1, c2 := r.c2)
    ensures r.c1 == Add(s.c1, Sub(XYToUV(s.outer, s.orgf), XYToUV(s.outer, s.oldOrgf)))
    ensures Sub(r.c2, r.c1) == Sub(s.c2, s.c1)
  {
    var olduv := XYToUV(s.outer, s.oldOrgf);
    var newuv := XYToUV(s.outer, s.orgf);
    s.(c1 := Sub(Add(s.c1, newuv), olduv), c2 := Sub(Add(s.c2, newuv), olduv))
  }

  predicate DragOriginDefined(s: State)
  {
    && Valid(s)
    && (HasOuter(s.settings) ==>
          && XYToUVDefined(s.outer, s.oldOrgf) && XYToUVDefined(s.outer, s.orgf)
          && UpdateInnerDefined(ShiftUV(s)))
  }

  /// The first step for the origin handle: in plane mode c1 and c2 follow
  /// it and the inner quad is re-derived, otherwise the inner quad is moved
  /// by as much as the handle was.
  function DragOrigin(s: State): (r: State)
    requires DragOriginDefined(s)
    ensures Valid(r) && r.outer == s.outer
    ensures HasOuter(s.settings) ==>
      && r.c1 == Add(s.c1, Sub(XYToUV(s.outer, s.orgf), XYToUV(s.outer, s.oldOrgf)))
      && Sub(r.c2, r.c1) == Sub(s.c2, s.c1)
      && MapDefined(s.outer, MakeRect(r.c1, r.c2))
      && r.inner == MapQuad(s.outer, MakeRect(r.c1, r.c2))
      && r == s.(c1 := r.c1, c2 := r.c2, inner := r.inner)
    ensures !HasOuter(s.settings) ==>
      && r.inner == Translate(s.inner, Sub(s.orgf, s.oldOrgf))
      && r == s.(inner := r.inner)
  {
    if HasOuter(s.settings) then UpdateInner(ShiftUV(s))
    else s.(inner := Translate(s.inner, Sub(s.orgf, s.oldOrgf)))
  }

  predicate BeforeGuardDefined(s: State, h: Handle)
  {
    && Valid(s) && Exists(s, h)
    && (h.Origin? ==> DragOriginDefined(s))
    && (h.OuterCorner? ==> UpdateInnerDefined(s))
  }

  /// The handles before the convexity guard: the origin step, or for an
  /// outer corner the inner quad re-derived from the dragged outer quad.
  function BeforeGuard(s: State, h: Handle): (r: State)
    requires BeforeGuardDefined(s, h)
    ensures Valid(r) && r.settings == s.settings
  {
    match h
    case Origin => DragOrigin(s)
    case OuterCorner(_) => UpdateInner(s)
    case InnerCorner(_) => s
  }

  /// The quad whose convexity a corner drag checks: the quad of the dragged
  /// corner.  An origin drag checks nothing.
  function ChangedQuad(s: State, h: Handle): Option<Quad>
    requires Valid(s) && Exists(s, h)
  {
    match h
    case Origin => None
    case InnerCorner(_) => Some(s.inner)
    case OuterCorner(_) => var outer: Quad := s.outer; Some(outer)
  }

  /// c1 and c2 after inner corner i was dragged to uv: the components that
  /// corner i of the rectangle c1..c2 takes from c1 or c2 are rewritten.
  function CornerUV(c1: Vec2, c2: Vec2, i: Corner, uv: Vec2): (r: (Vec2, Vec2))
  {
    (Vec2(if i == 0 || i == 3 then uv.x else c1.x, if i < 2 then uv.y else c1.y),
     Vec2(if i == 0 || i == 3 then c2.x else uv.x, if i < 2 then c2.y else uv.y))
  }

  /// The corner of the rectangle opposite corner i.
  function Opposite(i: Corner): Corner { (i + 2) % 4 }

  /// The rewrite moves corner i of the rectangle to uv and keeps the
  /// opposite corner where it was; no other pair does both.
  lemma CornerUVMovesOneCorner(c1: Vec2, c2: Vec2, i: Corner, uv: Vec2, d1: Vec2, d2: Vec2)
    ensures var r := CornerUV(c1, c2, i, uv);
      MakeRect(r.0, r.1)[i] == uv && MakeRect(r.0, r.1)[Opposite(i)] == MakeRect(c1, c2)[Opposite(i)]
    ensures MakeRect(d1, d2)[i] == uv && MakeRect(d1, d2)[Opposite(i)] == MakeRect(c1, c2)[Opposite(i)]
      ==> (d1, d2) == CornerUV(c1, c2, i, uv)
  {
  }

  predicate AfterGuardDefined(s: State, h: Handle)
  {
    && Valid(s) && Exists(s, h)
    && (h.InnerCorner? && HasOuter(s.settings) ==>
          && XYToUVDefined(s.outer, s.inner[h.i])
          && var c := CornerUV(s.c1, s.c2, h.i, XYToUV(s.outer, s.inner[h.i]));
             UpdateInnerDefined(s.(c1 := c.0, c2 := c.1)))
  }

  /// The step after the guard: in plane mode a dragged inner corner sets
  /// the matching components of c1 and c2 and the inner quad is re-derived.
  function AfterGuard(s: State, h: Handle): (r: State)
    requires AfterGuardDefined(s, h)
    ensures Valid(r)
    ensures h.InnerCorner? && HasOuter(s.settings) ==>
      && (r.c1, r.c2) == CornerUV(s.c1, s.c2, h.i, XYToUV(s.outer, s.inner[h.i]))
      && r.inner == MapQuad(s.outer, MakeRect(r.c1, r.c2))
      && r == s.(c1 := r.c1, c2 := r.c2, inner := r.inner)
    ensures !(h.InnerCorner? && HasOuter(s.settings)) ==> r == s
  {
    if h.InnerCorner? && HasOuter(s.settings) then
      var c := CornerUV(s.c1, s.c2, h.i, XYToUV(s.outer, s.inner[h.i]));
      UpdateInner(s.(c1 := c.0, c2 := c.1))
    else s
  }

  /// The part of the inverse solver this model keeps: the rotation origin
  /// is the crossing of the inner quad's diagonals.
  function InnerToText(s: State): (r: State)
    requires DiagonalDet(s.inner) != 0.0
    ensures r == s.(org := DiagonalCenter(s.inner))
  {
    s.(org := DiagonalCenter(s.inner))
  }

  /// Every division the drag performs has a nonzero divisor.
  predicate DragDefined(s: State, h: Handle)
  {
    && BeforeGuardDefined(s, h)
    && var s2 := BeforeGuard(s, h);
       && (ChangedQuad(s2, h).Some? ==> DiagonalDet(ChangedQuad(s2, h).value) != 0.0)
       && ((ChangedQuad(s2, h).Some? && !DiagonalsCross(ChangedQuad(s2, h).value)) ||
           (AfterGuardDefined(s2, h) && DiagonalDet(AfterGuard(s2, h).inner) != 0.0))
  }

  /// UpdateDrag for a handle already moved to its new position.
  function UpdateDrag(s: State, h: Handle): (r: DragOutcome)
    requires DragDefined(s, h)
    ensures Valid(r.state) && r.state.settings == s.settings
  {
    var s2 := BeforeGuard(s, h);
    if ChangedQuad(s2, h).Some? && !DiagonalsCross(ChangedQuad(s2, h).value) then
      Reverted(ResetFeaturePositions(s2))
    else
      Committed(SetFeaturePositions(InnerToText(AfterGuard(s2, h))))
  }

  // ---------------------------------------------------------------------------
  // Creating the handles
  // ---------------------------------------------------------------------------

  /// Four handles at the default position of a vector.
  const UnsetQuad: Quad := [Unset, Unset, Unset, Unset]

  /// A freshly constructed tool: no flags, the default rectangle, every
  /// position at the vector default and an empty outer quad.
  const Initial: State := State(0, DefaultC1, DefaultC2, Unset, Unset, UnsetQuad, [], UnsetQuad, UnsetQuad, Unset)

  /// New handles: the origin, four inner corners and, in plane mode only,
  /// four outer corners, none of them placed yet.
  function ClearFeatures(s: State): (r: State)
    ensures Valid(r) && r.inner == UnsetQuad && r.orgf == Unset
    ensures |r.outer| == 4 <==> HasOuter(s.settings)
    ensures r == s.(orgf := r.orgf, inner := r.inner, outer := r.outer)
  {
    s.(orgf := Unset, inner := UnsetQuad, outer := if HasOuter(s.settings) then UnsetQuad else [])
  }

  predicate MakeFeaturesDefined(s: State, line: Option<Line>, rotate: Vec3 -> Vec3)
  {
    TextToPerspDefined(ClearFeatures(s), line, rotate)
  }

  /// New handles, placed from the active line when there is one.
  function MakeFeatures(s: State, line: Option<Line>, rotate: Vec3 -> Vec3): (r: State)
    requires MakeFeaturesDefined(s, line, rotate)
    ensures Valid(r) && r.settings == s.settings && r.c1 == s.c1 && r.c2 == s.c2
    ensures r.orgf == Unset && Snapshot(r) == Snapshot(s)
    ensures line.None? ==> r.inner == UnsetQuad && r.org == s.org && (HasOuter(s.settings) ==> r.outer == UnsetQuad)
    ensures line.Some? ==> r.inner == TextCorners(line.value, rotate) && r.org == LineOrigin(line.value)
    ensures line.Some? && HasOuter(s.settings) ==> r.outer == MapQuad(r.inner, OuterUV(s.c1, s.c2))
  {
    TextToPersp(ClearFeatures(s), line, rotate)
  }

  /// Switching sub-tool: the flags are replaced and the handles made anew.
  function SetSubTool(s: State, subtool: bv32, line: Option<Line>, rotate: Vec3 -> Vec3): (r: State)
    requires MakeFeaturesDefined(s.(settings := subtool), line, rotate)
    ensures Valid(r) && r.settings == subtool && r.c1 == s.c1 && r.c2 == s.c2
    ensures |r.outer| == 4 <==> HasOuter(subtool)
    ensures r.orgf == Unset && Snapshot(r) == Snapshot(s)
    ensures line.None? ==> r.inner == UnsetQuad && r.org == s.org
    ensures line.Some? ==> r.inner == TextCorners(line.value, rotate) && r.org == LineOrigin(line.value)
    ensures line.Some? && HasOuter(subtool) ==> r.outer == MapQuad(r.inner, OuterUV(s.c1, s.c2))
  {
    MakeFeatures(s.(settings := subtool), line, rotate)
  }

  /// A new tool has no outer quad, the default rectangle c1 < c2 and a
  /// four-point snapshot; without an active line its handles stay unplaced.
  lemma ConstructedTool(line: Option<Line>, rotate: Vec3 -> Vec3)
    requires MakeFeaturesDefined(Initial, line, rotate)
    ensures var r := MakeFeatures(Initial, line, rotate);
      && !HasOuter(r.settings) && r.outer == []
      && r.c1.x < r.c2.x && r.c1.y < r.c2.y
      && |r.oldInner| == 4 && |r.oldOuter| == 4
      && (line.None? ==> r.inner == UnsetQuad && r.orgf == Unset)
  {
    SettingFlags(0);
  }

  /// Turning plane mode on creates the outer handles, and turning it off
  /// drops them; toggling the grid keeps whichever the tool had.
  lemma SubToolOuterFollowsPlane(s: State, flag: bv32, line: Option<Line>, rotate: Vec3 -> Vec3)
    requires flag == PerspPlane || flag == PerspGrid
    requires MakeFeaturesDefined(s.(settings := s.settings ^ flag), line, rotate)
    ensures var r := SetSubTool(s, s.settings ^ flag, line, rotate);
      |r.outer| == 4 <==> (if flag == PerspPlane then !HasOuter(s.settings) else HasOuter(s.settings))
  {
    SettingFlags(s.settings);
  }

  // ---------------------------------------------------------------------------
  // From the subtitle line
  // ---------------------------------------------------------------------------

  predicate TextToPerspDefined(s: State, line: Option<Line>, rotate: Vec3 -> Vec3)
  {
    && Valid(s)
    && (line.Some? ==>
          && ProjectionDefined(line.value, rotate)
          && UpdateOuterDefined(s.(org := LineOrigin(line.value), inner := TextCorners(line.value, rotate))))
  }

  /// With an active line, the rotation origin is read from it, the inner
  /// quad is where the projector puts the corners of its text, and in plane
  /// mode the outer quad is derived from it.  Without one, nothing changes.
  function TextToPersp(s: State, line: Option<Line>, rotate: Vec3 -> Vec3): (r: State)
    requires TextToPerspDefined(s, line, rotate)
    ensures Valid(r) && r.settings == s.settings && r.c1 == s.c1 && r.c2 == s.c2
    ensures line.None? ==> r == s
    ensures line.Some? ==>
      && r.org == LineOrigin(line.value) && r.inner == TextCorners(line.value, rotate)
      && r.orgf == s.orgf && Snapshot(r) == Snapshot(s)
      && (!HasOuter(s.settings) ==> r.outer == s.outer)
      && (HasOuter(s.settings) ==> r.outer == MapQuad(r.inner, OuterUV(s.c1, s.c2)))
  {
    match line
    case None => s
    case Some(l) => UpdateOuter(s.(org := LineOrigin(l), inner := TextCorners(l, rotate)))
  }

  /// Reading the same line again changes nothing: the outer quad derived
  /// from the text's corners is the one already there.
  lemma TextToPerspIdempotent(s: State, line: Option<Line>, rotate: Vec3 -> Vec3)
    requires TextToPerspDefined(s, line, rotate)
    ensures TextToPerspDefined(TextToPersp(s, line, rotate), line, rotate)
    ensures TextToPersp(TextToPersp(s, line, rotate), line, rotate) == TextToPersp(s, line, rotate)
  {
  }

  /// Making the handles twice leaves them as making them once.
  lemma MakeFeaturesIdempotent(s: State, line: Option<Line>, rotate: Vec3 -> Vec3)
    requires MakeFeaturesDefined(s, line, rotate)
    ensures MakeFeaturesDefined(MakeFeatures(s, line, rotate), line, rotate)
    ensures MakeFeatures(MakeFeatures(s, line, rotate), line, rotate) == MakeFeatures(s, line, rotate)
  {
  }

  predicate RefreshDefined(s: State, line: Option<Line>, rotate: Vec3 -> Vec3)
  {
    TextToPerspDefined(s, line, rotate) && DiagonalDet(TextToPersp(s, line, rotate).inner) != 0.0
  }

  /// The handles re-read from the line, the origin handle put at the
  /// crossing of the inner quad's diagonals, and the snapshot taken.
  function Refresh(s: State, line: Option<Line>, rotate: Vec3 -> Vec3): (r: State)
    requires RefreshDefined(s, line, rotate)
    ensures Valid(r) && Synced(r) && r.settings == s.settings && r.c1 == s.c1 && r.c2 == s.c2
    ensures r.inner == (if line.Some? then TextCorners(line.value, rotate) else s.inner)
    ensures r.org == (if line.Some? then LineOrigin(line.value) else s.org)
    ensures r.orgf == DiagonalCenter(r.inner)
    ensures line.None? ==> r.outer == s.outer
    ensures line.Some? && HasOuter(s.settings) ==> r.outer == MapQuad(r.inner, OuterUV(s.c1, s.c2))
  {
    SetFeaturePositions(TextToPersp(s, line, rotate))
  }

  /// A second refresh from the same line changes nothing.
  lemma RefreshIdempotent(s: State, line: Option<Line>, rotate: Vec3 -> Vec3)
    requires RefreshDefined(s, line, rotate)
    ensures RefreshDefined(Refresh(s, line, rotate), line, rotate)
    ensures Refresh(Refresh(s, line, rotate), line, rotate) == Refresh(s, line, rotate)
  {
  }
}
