# Aegisub perspective tool — a Dafny model

This project models the core of Aegisub's perspective typesetting tool (`VisualToolPerspective`).
The tool shows the four corners of a subtitle line's text as an "inner" quad on the video.
With the plane sub-tool enabled, it also shows an "outer" quad. The outer quad is the perspective
image of a larger rectangle in the same plane.

The user drags three kinds of handle: an inner corner, an outer corner, or the handle `orgf` at the
crossing of the inner diagonals. After each drag the tool does four things:

- moves the other quad so that the two quads stay in one plane;
- refuses a quad whose diagonals do not cross, and puts every handle back to the positions saved
  before the drag;
- otherwise saves the new positions as the snapshot for the next drag;
- recovers the line's origin from the inner quad.

In the other direction, `TextToPersp` reads a line's transform and computes the inner quad. That
transform is the position, origin, angles, shear, scale and alignment.

All arithmetic is exact `real` arithmetic. Each division in the source becomes a precondition, or a
definedness predicate (`DragDefined`, `RefreshDefined`, …) that the controller's methods require of
their caller. An input on which the source would divide by zero is therefore not covered by the
model; the model does not reject it at run time.

The model has these parts:

- `Vectors`: 2D and 3D points and quads.
- `Wrappers`: the `Option` type.
- `PerspectiveMath`: the 2×2 solver, the quad maps between the unit square and a quad, `MakeRect`
  and `FeaturePositions`.
- `QuadAlgebra` and `QuadMapping`: the proofs that the two quad maps are inverse to each other and
  send the unit square's corners to the quad's corners.
- `Diagonals`: the crossing of a quad's diagonals, which is the convexity guard of `UpdateDrag`.
- `Alignment`: the numpad alignment dispatch of `TextToPersp`.
- `TextProjection`: the forward projection of the text box.
- `InverseSolver`: the depth solve that starts `InnerToText`.
- `ToolState`: the controller's state and every operation on it, as functions on a `State` value.
- `DragProperties`: what a drag does, handle by handle.
- `VisualToolPerspective`: the class `PerspectiveTool`. Its fields are those of the C++ class. Each
  of its methods updates them in place and is proved to produce the `ToolState` function of the
  old state.

## Model

| member | source | states |
|---|---|---|
| PerspectiveMath.Solve2x2 | src/visual_tool_perspective.cpp:43-61 | when the determinant is nonzero, the pivoted LU solution satisfies both equations of the system |
| PerspectiveMath.PivotNonzero | src/visual_tool_perspective.cpp:45-49 | the row swap taken when the second row's first coefficient is larger in magnitude leaves a nonzero pivot, so the division by the pivot is defined |
| PerspectiveMath.SolvePivoted | src/visual_tool_perspective.cpp:51-60 | elimination and back-substitution with a nonzero pivot solve the system |
| PerspectiveMath.Solve2x2Unique | src/visual_tool_perspective.cpp:43-61 | a pair satisfies the system if and only if it is the pair the solver returns |
| PerspectiveMath.Solve2x2Cramer | src/visual_tool_perspective.cpp:43-61 | the solver's result agrees with Cramer's rule |
| PerspectiveMath.HomogeneousOnlyZero | src/visual_tool_perspective.cpp:43-61 | with a nonzero determinant, only the zero pair solves the homogeneous system |
| PerspectiveMath.UnwrapQuadRel | src/visual_tool_perspective.cpp:63-72 | the coordinates relative to the first corner, moved back by the first corner, give the quad again |
| PerspectiveMath.MakeRect | src/visual_tool_perspective.cpp:154-161 | four points in the order a, (b.x, a.y), b, (a.x, b.y) |
| PerspectiveMath.FeaturePositions | src/visual_tool_perspective.cpp:163-169 | the quad holds the positions of the first four features, in order |
| QuadMapping.UVToXYCorners | src/visual_tool_perspective.cpp:85-95 | for a quad with no three corners collinear, the unit square's corners (0,0), (1,0), (1,1), (0,1) have nonzero denominators and map to the quad's corners 0 to 3 |
| QuadMapping.XYToUVCorners | src/visual_tool_perspective.cpp:74-83 | the quad's corners map back to the unit square's corners, and in particular the first corner maps to (0,0) |
| QuadMapping.XYToUVInvertsUVToXY | src/visual_tool_perspective.cpp:74-95 | for a quad with no three corners collinear, mapping uv to the quad and back gives uv, and the way back is defined |
| QuadMapping.UVToXYInvertsXYToUV | src/visual_tool_perspective.cpp:74-95 | mapping a point to the unit square and forward again gives the point, and the way forward is defined |
| QuadMapping.XYToUVInvertsUVToXYRel | src/visual_tool_perspective.cpp:74-95 | the same round trip on the coordinates relative to the first corner |
| QuadMapping.UVToXYInvertsXYToUVRel | src/visual_tool_perspective.cpp:74-95 | the reverse round trip on the relative coordinates |
| QuadMapping.UVToXYCornersRel | src/visual_tool_perspective.cpp:85-95 | on relative coordinates, the unit square's corners map to the origin and to the three other corners |
| QuadMapping.XYToUVRelDefinedIff | src/visual_tool_perspective.cpp:74-83 | both of the inverse map's denominators are nonzero if and only if their common factor is nonzero |
| QuadMapping.NoThreeCollinearUnwrapped | src/visual_tool_perspective.cpp:63-72 | a quad has no three collinear corners if and only if its relative coordinates have none |
| QuadMapping.UVToXYOnRectangle | src/visual_tool_perspective.cpp:85-95 | on an axis-aligned rectangle the forward map is defined everywhere and is the rectangle's affine map |
| Diagonals.DiagonalParams | src/visual_tool_perspective.cpp:330-333 | the solver's pair on the diagonals' system gives the point where the two diagonal lines meet, q0 + la1·(q2 − q0) = q3 − la2·(q1 − q3) |
| Diagonals.DiagonalParamsUnique | src/visual_tool_perspective.cpp:330-333 | the pair is the only one at which the diagonal lines meet |
| Diagonals.DiagonalCenter | src/visual_tool_perspective.cpp:357-367 | the crossing point lies on both diagonal lines |
| Diagonals.DiagonalsCrossIffSeparated | src/visual_tool_perspective.cpp:334-341 | the guard passes (la1 and −la2 both in [0, 1]) if and only if each diagonal separates the other's endpoints |
| Diagonals.TranslateDiagonals | src/visual_tool_perspective.cpp:303-317 | translating a quad keeps the diagonals' system and the guard's verdict, and moves the crossing by the same vector |
| Alignment.AnchorOnNumpadGrid | src/visual_tool_perspective.cpp:468-507 | for alignment 1 to 9 the row is (align − 1) / 3 and the column (align − 1) % 3; the shear factor is the font size, half of it, or 0 by row; the top offset is −h, −h/2 or 0 by row; the corrected left offset is 0, −w/2 or −w by column |
| Alignment.LeftColumnLeavesTextLeftUnset | src/visual_tool_perspective.cpp:486-497 | the left offset as written is assigned if and only if the alignment is not 1, 4 or 7 |
| Alignment.AlignmentZeroTruncates | src/visual_tool_perspective.cpp:468-497 | alignment 0 has C row 0 and C column −1, so it is treated as a bottom alignment and leaves the left offset unassigned |
| Alignment.CRem3 | src/visual_tool_perspective.cpp:488 | the remainder of C's truncating division by 3 takes the sign of the dividend, and quotient times 3 plus remainder gives the dividend back |
| VisualToolPerspective.TextOffset | src/visual_tool_perspective.cpp:484-507 | the top offset is −h, −h/2 or 0 by C row; the left offset is −w/2 or −w for C columns 1 and 2, and for the left column, which the source leaves unassigned, the corrected 0; so for alignments 1 to 9 the left offset is −w/2 times the column |
| TextProjection.Project | src/visual_tool_perspective.cpp:524-528 | the projected point lies where the line of sight from the viewer, ScreenZ behind the screen, meets the screen |
| TextProjection.PlanarCornersParallelogram | src/visual_tool_perspective.cpp:509-521 | before rotation, the sheared, aligned, scaled and moved corners form a parallelogram |
| TextProjection.UntransformedLineGivesTextBox | src/visual_tool_perspective.cpp:509-530 | without rotation, shear or scaling the inner quad is the text's box at the anchor, as wide and high as the text |
| TextProjection.ProjectFixesScreen | src/visual_tool_perspective.cpp:524-528 | a point on the screen plane is its own projection |
| InverseSolver.DepthFactors | src/visual_tool_perspective.cpp:369-376 | the solver's depth factors balance the normalized corners: n0 + (z2 + z4 − 1)·n2 = z2·n1 + z4·n3 |
| InverseSolver.InnerToTextLift | src/visual_tool_perspective.cpp:357-385 | the lift is centred on the crossing of the inner quad's diagonals |
| InverseSolver.LiftIsCenteredParallelogram | src/visual_tool_perspective.cpp:357-385 | each lifted corner lies on the line of sight through its screen corner, the four lifted corners form a parallelogram in space, and their centre is at depth ScreenZ straight behind the crossing |
| InverseSolver.BalanceVanishesOnDiagonals | src/visual_tool_perspective.cpp:369-376 | since the normalized corners lie on the two independent diagonals, the balance forces n0 + (z2 + z4 − 1)·n2 = 0 |
| ToolState.SettingFlags | src/visual_tool_perspective.h:28-32 | the plane and grid flags are distinct single bits below the end marker, so toggling the grid never changes whether the outer quad exists, toggling the plane always does, and settings 0 has no outer quad |
| ToolState.MapQuad | src/visual_tool_perspective.cpp:171-185 | each corner of the result is the forward map of the matching corner of the rectangle |
| ToolState.UpdateInner | src/visual_tool_perspective.cpp:171-176 | the inner corners become the image of the rectangle c1–c2 under the outer quad's map, and nothing else changes |
| ToolState.UpdateOuter | src/visual_tool_perspective.cpp:178-185 | in plane mode the outer corners become the image of the rectangle from −c1/(c2 − c1) to (1 − c1)/(c2 − c1) under the inner quad's map; without plane mode the state is unchanged |
| ToolState.ResetFeaturePositions | src/visual_tool_perspective.cpp:424-431 | the inner corners, the outer corners (plane mode only) and orgf come back from the snapshot, and nothing else changes |
| ToolState.SaveFeaturePositions | src/visual_tool_perspective.cpp:433-440 | the snapshot becomes the current inner corners, outer corners (plane mode only) and orgf, and nothing else changes |
| ToolState.SetFeaturePositions | src/visual_tool_perspective.cpp:442-451 | orgf moves to the crossing of the inner diagonals and the snapshot is saved; the quads, c1, c2, settings and org are kept, and outside plane mode so is the saved outer quad; nothing else changes |
| ToolState.SnapshotRoundTrip | src/visual_tool_perspective.cpp:424-440 | restoring right after saving changes nothing; restoring leaves the snapshot in sync; saving, or restoring, is a no-op exactly when the state is already in sync |
| ToolState.ShiftUV | src/visual_tool_perspective.cpp:305-310 | c1 moves by XYToUV(outer, orgf) − XYToUV(outer, old orgf), c2 by the same vector so c2 − c1 is kept, and nothing else changes |
| ToolState.CornerUVMovesOneCorner | src/visual_tool_perspective.cpp:343-350 | rewriting c1 and c2 for inner corner i puts corner i of the rectangle at the new uv and keeps the opposite corner; it is the only rewrite that does both |
| ToolState.DragOrigin | src/visual_tool_perspective.cpp:303-317 | in plane mode, c1 moves by XYToUV(outer, orgf) − XYToUV(outer, old orgf) and c2 with it so c2 − c1 is kept, the inner quad is re-derived from the outer quad and the moved rectangle, and nothing else changes; without plane mode the inner quad is translated by orgf − old orgf and nothing else changes |
| ToolState.AfterGuard | src/visual_tool_perspective.cpp:343-350 | in plane mode, for a dragged inner corner, c1 and c2 take the corner's new uv in the outer quad, the inner quad is re-derived, and nothing else changes; for any other drag the state is unchanged |
| ToolState.UpdateDrag | src/visual_tool_perspective.cpp:302-354 | a drag keeps the settings, and afterwards the outer quad exists exactly in plane mode |
| ToolState.ClearFeatures | src/visual_tool_perspective.cpp:187-209 | the new inner corners and orgf are at the unset position, four outer corners exist exactly in plane mode, and nothing else changes |
| ToolState.MakeFeatures | src/visual_tool_perspective.cpp:187-212 | the settings, c1, c2 and the snapshot are kept and orgf is unset; without a line the inner corners are unset, the outer ones too in plane mode, and the line's origin is kept; with a line the inner corners are the projected text box, the origin is the line's, and in plane mode the outer quad is derived from the inner one through the rectangle c1–c2 |
| ToolState.MakeFeaturesIdempotent | src/visual_tool_perspective.cpp:187-212 | making the handles a second time from the same line gives the same state |
| ToolState.SetSubTool | src/visual_tool_perspective.cpp:133-144 | the settings become the chosen sub-tool, c1, c2 and the snapshot are kept, four outer corners exist exactly when the new sub-tool has plane mode, orgf is unset, and the inner corners are unset without a line or the projected text box with one, in which case the outer quad of the new plane mode is derived from them |
| ToolState.SubToolOuterFollowsPlane | src/visual_tool_perspective.cpp:133-144 | after toggling the plane flag the outer quad exists exactly when it did not before; after toggling the grid flag it exists exactly when it did before |
| ToolState.ConstructedTool | src/visual_tool_perspective.h:36-68 | a new tool has plane mode off and no outer corners, c1 < c2 in both coordinates, and a snapshot of four inner and four outer points; without a line its corners and orgf are unset |
| ToolState.TextToPersp | src/visual_tool_perspective.cpp:453-532 | without a line nothing changes; with one the line's origin is read, the inner corners become the projected text box, the outer quad is derived from them in plane mode and kept otherwise, and orgf, c1, c2, the settings and the snapshot are kept |
| ToolState.TextToPerspIdempotent | src/visual_tool_perspective.cpp:453-532 | reading the same line a second time changes nothing |
| ToolState.Refresh | src/visual_tool_perspective.cpp:534-537 | the inner corners and the line's origin are re-read from the line (kept without one), the outer quad is kept without a line and re-derived from the new inner quad with one in plane mode, orgf is at the crossing of the new inner diagonals, the snapshot agrees with the handles, and the settings, c1 and c2 are kept |
| ToolState.RefreshIdempotent | src/visual_tool_perspective.cpp:534-537 | a second refresh from the same line changes nothing |
| DragProperties.DragRevertsIffGuardFails | src/visual_tool_perspective.cpp:330-341 | an origin drag always commits; a corner drag is reverted if and only if the diagonals of the changed quad do not cross; a reverted drag leaves exactly the snapshot's positions |
| DragProperties.DragLeavesSnapshotInSync | src/visual_tool_perspective.cpp:336-353 | after any drag the snapshot agrees with the handles; after a committed drag orgf and the line's origin sit at the crossing of the inner diagonals |
| DragProperties.OriginDragTranslates | src/visual_tool_perspective.cpp:303-317 | without plane mode, the origin drag translates every inner corner by orgf − old orgf and keeps c1, c2 and the outer quad |
| DragProperties.OriginDragInPlane | src/visual_tool_perspective.cpp:303-317 | in plane mode, the origin drag shifts c1 and c2 by the same uv delta, keeps c2 − c1 and the outer quad, and maps the shifted rectangle through the outer quad |
| DragProperties.InnerCornerDragInPlane | src/visual_tool_perspective.cpp:343-350 | in plane mode, an inner corner drag that passes the guard rewrites only the matching parts of c1 and c2, keeps the opposite corner, keeps the outer quad, and leaves the dragged corner where it was dragged |
| DragProperties.InnerCornerDragFree | src/visual_tool_perspective.cpp:319-353 | without plane mode, an inner corner drag that passes the guard keeps the inner quad and c1–c2 and moves orgf to the new crossing |
| DragProperties.OuterCornerDrag | src/visual_tool_perspective.cpp:319-341 | an outer corner drag that passes the guard keeps the outer quad and c1–c2 and maps c1–c2 through it onto the inner quad |
| DragProperties.UnitRectangleCopiesOuter | src/visual_tool_perspective.cpp:171-176 | with c1 = (0,0) and c2 = (1,1), UpdateInner copies the outer quad onto the inner one |
| DragProperties.OuterInnerRoundTripOnRectangles | src/visual_tool_perspective.cpp:171-185 | for a rectangular inner quad, computing the outer quad and then the inner quad from it gives the same state back |
| DragProperties.RectanglePassesGuard | src/visual_tool_perspective.cpp:330-341 | an axis-aligned rectangle passes the convexity guard, and its diagonals cross at its centre |
| DragProperties.DefaultRectangle | src/visual_tool_perspective.h:58-59 | the default c1 = (.25, .25) lies below c2 = (.75, .75) in both coordinates, so UpdateOuter's divisions by c2 − c1 are defined; the outer rectangle is (−.5, −.5) to (1.5, 1.5) |
| DragProperties.RefreshCentersOriginOnText | src/visual_tool_perspective.cpp:534-537 | refreshing an untransformed line places the inner quad on the text's box and orgf at its centre, and takes the line's origin |
| VisualToolPerspective.ConvexityGuard | src/visual_tool_perspective.cpp:330-341 | the guard's verdict is true exactly when the diagonals cross |
| VisualToolPerspective.PerspectiveTool.constructor | src/visual_tool_perspective.cpp:111-117 | the new tool's state is that of MakeFeatures on the defaults; without a line, the transform coefficients and alignment are zero |
| VisualToolPerspective.PerspectiveTool.SetSubTool | src/visual_tool_perspective.cpp:133-144 | the fields become ToolState.SetSubTool of the old state |
| VisualToolPerspective.PerspectiveTool.MakeFeatures | src/visual_tool_perspective.cpp:187-212 | the fields become ToolState.MakeFeatures of the old state; without a line the transform fields are untouched |
| VisualToolPerspective.PerspectiveTool.ClearFeatures | src/visual_tool_perspective.cpp:187-209 | the corners and orgf become ToolState.ClearFeatures of the old state, and no other field changes |
| VisualToolPerspective.PerspectiveTool.TextToPersp | src/visual_tool_perspective.cpp:453-532 | without a line nothing changes; with one the transform fields hold the line's values and the quads are ToolState.TextToPersp of the old state |
| VisualToolPerspective.PerspectiveTool.ReadTransform | src/visual_tool_perspective.cpp:456-482 | the position, origin, angles, shear, scale, alignment, shear factor and text size are read from the line |
| VisualToolPerspective.PerspectiveTool.ProjectCorner | src/visual_tool_perspective.cpp:509-529 | one pass of the loop gives the screen position of corner i |
| VisualToolPerspective.PerspectiveTool.PlaceInnerCorners | src/visual_tool_perspective.cpp:509-530 | the loop sets the inner corners to the projected text box |
| VisualToolPerspective.PerspectiveTool.UpdateInner | src/visual_tool_perspective.cpp:171-176 | the loop writes the inner corners of ToolState.UpdateInner and nothing else |
| VisualToolPerspective.PerspectiveTool.UpdateOuter | src/visual_tool_perspective.cpp:178-185 | the loop writes the outer corners of ToolState.UpdateOuter and nothing else |
| VisualToolPerspective.PerspectiveTool.ResetFeaturePositions | src/visual_tool_perspective.cpp:424-431 | the fields become ToolState.ResetFeaturePositions of the old state |
| VisualToolPerspective.PerspectiveTool.SaveFeaturePositions | src/visual_tool_perspective.cpp:433-440 | the fields become ToolState.SaveFeaturePositions of the old state |
| VisualToolPerspective.PerspectiveTool.SetFeaturePositions | src/visual_tool_perspective.cpp:442-451 | the fields become ToolState.SetFeaturePositions of the old state |
| VisualToolPerspective.PerspectiveTool.InnerToText | src/visual_tool_perspective.cpp:356-367 | the line's origin becomes the crossing of the inner diagonals |
| VisualToolPerspective.PerspectiveTool.DoRefresh | src/visual_tool_perspective.cpp:534-537 | the fields become ToolState.Refresh of the old state |
| VisualToolPerspective.PerspectiveTool.DragOrigin | src/visual_tool_perspective.cpp:303-317 | the fields become ToolState.DragOrigin of the old state |
| VisualToolPerspective.PerspectiveTool.FollowDraggedCorner | src/visual_tool_perspective.cpp:319-328 | the loop over the four corners reports which quad holds the dragged handle (none for the origin) and, for an outer corner, re-derives the inner quad; nothing else changes |
| VisualToolPerspective.PerspectiveTool.PlaneCornerToUV | src/visual_tool_perspective.cpp:343-350 | the loop over the four corners leaves the fields as ToolState.AfterGuard of the old state: a dragged inner corner in plane mode rewrites c1, c2 and the inner quad, any other handle changes nothing |
| VisualToolPerspective.PerspectiveTool.MoveInnerCornerUV | src/visual_tool_perspective.cpp:344-348 | one iteration for inner corner i in plane mode: the fields become ToolState.AfterGuard of the old state for that corner |
| VisualToolPerspective.PerspectiveTool.Commit | src/visual_tool_perspective.cpp:343-353 | after a passed guard, the fields become ToolState.SetFeaturePositions of ToolState.InnerToText of ToolState.AfterGuard of the old state |
| VisualToolPerspective.PerspectiveTool.SetCornerUV | src/visual_tool_perspective.cpp:343-350 | c1 and c2 become ToolState.CornerUV for the corner |
| VisualToolPerspective.PerspectiveTool.UpdateDrag | src/visual_tool_perspective.cpp:302-354 | the fields become the state of ToolState.UpdateDrag of the old state, whether committed or reverted |

## Left out

- `InnerToText` from the trigonometry on has no exact-real counterpart, so `ToolState.InnerToText` and `VisualToolPerspective.PerspectiveTool.InnerToText` keep only the new origin. This leaves out the arc tangents and rotations that recover the angles, the shear and the scale, and the override tags written to the selection (src/visual_tool_perspective.cpp:387-421). The depth solve before it is modelled in `InverseSolver`, but its result is not written to any field.
- `TextToPersp`'s rotations about the z, x and y axes are trigonometry. They are a parameter `rotate` of the model, so nothing is proved about the rotated corners beyond the projection.
- `ToScriptCoords`/`FromScriptCoords` belong to the video display's coordinate mapper, which is not part of this model; they are the identity here.
- `Draw`, `AddTool` and `SetToolbar` are rendering and toolbar code.
- `SetSubTool`'s toolbar bookkeeping is left out: the exception thrown when the toolbar has not been set yet, and the toggling of the toolbar buttons.
- `GetSubTool` only returns the settings field.
- `MakeFeatures` allocates the handles and pushes them into the feature list (src/visual_tool_perspective.cpp:195-207), while `UpdateDrag` recognises the dragged feature by comparing it with `orgf` and the corner pointers (src/visual_tool_perspective.cpp:303, 322, 325, 344). The model addresses a handle by its role (origin, inner corner i, outer corner i), so it assumes the dragged feature is that handle itself, as those comparisons intend. It leaves out the feature list, the semantics of its container and the selection.
- `Solve2x2Proper` is declared in src/visual_tool_perspective.h:70 without a definition.
- Floating-point rounding, NaN and infinity are left out: every division is exact, and its divisor must be nonzero by a precondition or by a definedness predicate.
- The line's getters, the vector classes and the float minimum used as the "unset" position are not part of this model. They become fields of `TextProjection.Line`, `Vectors.Vec2`/`Vec3`, and the constant 2^-126.
- src/vapoursynth_common.cpp and src/video_provider_bestsource.cpp are not part of this model.
- `ToolState.UpdateDrag` only states that the settings are kept and the state stays well formed. What each kind of drag does is stated by the lemmas in `DragProperties`.
- `VisualToolPerspective.PerspectiveTool.constructor` sizes the snapshot before `MakeFeatures`, unlike src/visual_tool_perspective.cpp:114-116; this is harmless because `MakeFeatures` neither reads nor writes the snapshot.
- `TextProjection.AnchorOffset`, `VisualToolPerspective.TextOffset` and every member built on them use the corrected left offset 0 for alignments 1, 4 and 7, where the source reads an unassigned `textleft` (see Findings). These members are `TextProjection.TextCorners`, `TextProjection.UntransformedLineGivesTextBox`, `ToolState.TextToPersp`, `ToolState.MakeFeatures`, `ToolState.SetSubTool`, `ToolState.Refresh`, `DragProperties.RefreshCentersOriginOnText`, and `TextToPersp`, `FromLine`, `MakeFeatures`, `SetSubTool`, `DoRefresh` and the constructor of `VisualToolPerspective.PerspectiveTool`. Only `Alignment.TextLeftAsWritten` models the offset as written.
- `DragProperties.OuterInnerRoundTripOnRectangles` proves that deriving the outer quad and then the inner quad from it gives the inner quad back only for axis-aligned rectangles. For a general quad this needs the uniqueness of the projective map through four points, which is not proved here.

## Findings

| source | as written | input that shows it | evidently intended | confidence | as-written member | corrected member |
|---|---|---|---|---|---|---|
| src/visual_tool_perspective.cpp:486-497 | `textleft` is declared without a value, and the switch on the column assigns it only for columns 1 and 2 | alignment 1, 4 or 7 (left-aligned text): the left offset is read uninitialised | the left offset is 0 for the left column, as `texttop` is initialised to 0 for the top row | not executed | Alignment.LeftColumnLeavesTextLeftUnset | Alignment.AnchorOnNumpadGrid |
