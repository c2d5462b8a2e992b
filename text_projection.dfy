/// The forward projector: from a subtitle line's transform to the screen
/// positions of the four corners of its text.
///
/// Each corner of the text's bounding box is sheared, moved to the anchor,
/// scaled and moved relative to the rotation origin; it is then rotated in
/// space, projected through a pinhole at distance ScreenZ in front of the
/// screen and moved back to the origin.  The rotation by the line's angles
/// is trigonometry and is a parameter here: `rotate` stands for the three
/// rotations about the z, x and y axes that the line's angles describe.
module TextProjection {
  import opened Wrappers
  import opened Vectors
  import opened PerspectiveMath
  import opened Alignment

  /// The distance of the viewer from the screen.
  const ScreenZ: real := 312.5

  /// What the projector reads from the active subtitle line: its rotation
  /// origin (absent when the line sets none), position, rotation angles,
  /// shear, scale in percent, font size, alignment code and the width and
  /// height of its text.
  datatype Line = Line(
    origin: Option<Vec2>, position: Vec2,
    angleX: real, angleY: real, angleZ: real,
    fax: real, fay: real, scale: Vec2,
    fontSize: real, alignment: int,
    width: real, height: real)

  /// The rotation origin, which defaults to the position.
  function LineOrigin(line: Line): Vec2
  {
    match line.origin
    case Some(o) => o
    case None => line.position
  }

  /// The offset of the text's top-left corner from the anchor.
  function AnchorOffset(line: Line): Vec2
  {
    Vec2(TextLeft(line.alignment, line.width), TextTop(line.alignment, line.height))
  }

  /// The shear of a point by the factors fax and fay.
  function Shear(p: Vec2, fax: real, fay: real): Vec2
  {
    Vec2(p.x + p.y * fax, p.x * fay + p.y)
  }

  /// Corner i of the text's bounding box, sheared and moved to the anchor.
  function AlignedCorner(line: Line, i: Corner): Vec2
  {
    var p := MakeRect(Vec2(0.0, 0.0), Vec2(line.width, line.height))[i];
    Add(Shear(p, line.fax, line.fay), AnchorOffset(line))
  }

  /// Scaling by percentages per axis.
  function ScalePercent(p: Vec2, scale: Vec2): Vec2
  {
    Vec2(p.x * scale.x / 100.0, p.y * scale.y / 100.0)
  }

  /// Corner i of the text after shear, alignment, scaling and the move
  /// relative to the origin, before it is rotated.
  function PlanarCorner(line: Line, i: Corner): Vec2
  {
    Sub(Add(ScalePercent(AlignedCorner(line, i), line.scale), line.position), LineOrigin(line))
  }

  /// The pinhole projection onto the screen of a point at depth z in front
  /// of it, seen from ScreenZ behind it: the result is where the line of
  /// sight from the viewer at (0, 0, -ScreenZ) to q meets the screen.
  function Project(q: Vec3): (r: Vec2)
    requires q.z + ScreenZ != 0.0
    ensures r.x * (q.z + ScreenZ) == ScreenZ * q.x
    ensures r.y * (q.z + ScreenZ) == ScreenZ * q.y
  {
    var f := ScreenZ / (q.z + ScreenZ);
    Vec2(f * q.x, f * q.y)
  }

  /// The rotated corners all lie off the viewer's plane.
  predicate ProjectionDefined(line: Line, rotate: Vec3 -> Vec3)
  {
    forall i: Corner :: rotate(Lift(PlanarCorner(line, i), 0.0)).z + ScreenZ != 0.0
  }

  /// Screen position of corner i.
  function ProjectedCorner(line: Line, rotate: Vec3 -> Vec3, i: Corner): Vec2
    requires ProjectionDefined(line, rotate)
  {
    Add(Project(rotate(Lift(PlanarCorner(line, i), 0.0))), LineOrigin(line))
  }

  /// The inner quad the projector computes for a line.
  function TextCorners(line: Line, rotate: Vec3 -> Vec3): Quad
    requires ProjectionDefined(line, rotate)
  {
    [ProjectedCorner(line, rotate, 0), ProjectedCorner(line, rotate, 1),
     ProjectedCorner(line, rotate, 2), ProjectedCorner(line, rotate, 3)]
  }

  // ---------------------------------------------------------------------------
  // Properties
  // ---------------------------------------------------------------------------

  /// Four points a, b, c, d in this order form a parallelogram (possibly a
  /// degenerate one).
  predicate IsParallelogram(a: Vec2, b: Vec2, c: Vec2, d: Vec2) { Add(a, c) == Add(b, d) }

  /// Scaling by percentages keeps parallelograms.
  lemma ScalePercentParallelogram(a: Vec2, b: Vec2, c: Vec2, d: Vec2, scale: Vec2)
    requires IsParallelogram(a, b, c, d)
    ensures IsParallelogram(ScalePercent(a, scale), ScalePercent(b, scale), ScalePercent(c, scale), ScalePercent(d, scale))
  {
    assert a.x * scale.x + c.x * scale.x == b.x * scale.x + d.x * scale.x by {
      assert (a.x + c.x) * scale.x == (b.x + d.x) * scale.x;
    }
    assert a.y * scale.y + c.y * scale.y == b.y * scale.y + d.y * scale.y by {
      assert (a.y + c.y) * scale.y == (b.y + d.y) * scale.y;
    }
  }

  /// The sheared corners of a box form a parallelogram.
  lemma ShearedBoxParallelogram(width: real, height: real, fax: real, fay: real)
    ensures var box := MakeRect(Vec2(0.0, 0.0), Vec2(width, height));
      IsParallelogram(Shear(box[0], fax, fay), Shear(box[1], fax, fay), Shear(box[2], fax, fay), Shear(box[3], fax, fay))
  {
    var box := MakeRect(Vec2(0.0, 0.0), Vec2(width, height));
    assert Shear(box[0], fax, fay) == Vec2(0.0, 0.0);
    assert Shear(box[1], fax, fay) == Vec2(width, width * fay);
    assert Shear(box[2], fax, fay) == Vec2(width + height * fax, width * fay + height);
    assert Shear(box[3], fax, fay) == Vec2(height * fax, height);
  }

  /// Moving by u and then back by v keeps parallelograms.
  lemma MoveParallelogram(a: Vec2, b: Vec2, c: Vec2, d: Vec2, u: Vec2, v: Vec2)
    requires IsParallelogram(a, b, c, d)
    ensures IsParallelogram(Sub(Add(a, u), v), Sub(Add(b, u), v), Sub(Add(c, u), v), Sub(Add(d, u), v))
  {
  }

  /// Before rotation the corners form a parallelogram: shear, alignment,
  /// scaling and translation are affine.
  lemma PlanarCornersParallelogram(line: Line)
    ensures IsParallelogram(PlanarCorner(line, 0), PlanarCorner(line, 1), PlanarCorner(line, 2), PlanarCorner(line, 3))
  {
    var box := MakeRect(Vec2(0.0, 0.0), Vec2(line.width, line.height));
    var s0, s1, s2, s3 := Shear(box[0], line.fax, line.fay), Shear(box[1], line.fax, line.fay),
                          Shear(box[2], line.fax, line.fay), Shear(box[3], line.fax, line.fay);
    ShearedBoxParallelogram(line.width, line.height, line.fax, line.fay);
    MoveParallelogram(s0, s1, s2, s3, AnchorOffset(line), Zero);
    var a0, a1, a2, a3 := AlignedCorner(line, 0), AlignedCorner(line, 1), AlignedCorner(line, 2), AlignedCorner(line, 3);
    assert IsParallelogram(a0, a1, a2, a3);
    ScalePercentParallelogram(a0, a1, a2, a3, line.scale);
    var c0, c1, c2, c3 := ScalePercent(a0, line.scale), ScalePercent(a1, line.scale), ScalePercent(a2, line.scale), ScalePercent(a3, line.scale);
    MoveParallelogram(c0, c1, c2, c3, line.position, LineOrigin(line));
  }

  /// A point on the screen plane is its own projection.
  lemma ProjectFixesScreen(p: Vec2)
    ensures Project(Lift(p, 0.0)) == p
  {
  }

  /// Without rotation, shear or scaling the projector places the text's
  /// bounding box at the anchor: its top-left corner is the position moved
  /// by the alignment offset, and it is as wide and as high as the text.
  lemma UntransformedLineGivesTextBox(line: Line, rotate: Vec3 -> Vec3)
    requires forall v :: rotate(v) == v
    requires line.fax == 0.0 && line.fay == 0.0 && line.scale == Vec2(100.0, 100.0)
    ensures ProjectionDefined(line, rotate)
    ensures var topLeft := Add(line.position, AnchorOffset(line));
      TextCorners(line, rotate) == MakeRect(topLeft, Add(topLeft, Vec2(line.width, line.height)))
  {
    var topLeft := Add(line.position, AnchorOffset(line));
    var box := MakeRect(topLeft, Add(topLeft, Vec2(line.width, line.height)));
    forall i: Corner
      ensures rotate(Lift(PlanarCorner(line, i), 0.0)).z + ScreenZ != 0.0
      ensures ProjectedCorner(line, rotate, i) == box[i]
    {
      ProjectFixesScreen(PlanarCorner(line, i));
    }
  }
}
