/// Points of the script plane, with exact real coordinates.
///
/// The tool works on a two-dimensional point type with component access and
/// component-wise arithmetic; only the operations the perspective tool uses
/// are given here.
module Vectors {

  datatype Vec2 = Vec2(x: real, y: real)

  const Zero := Vec2(0.0, 0.0)

  function Add(a: Vec2, b: Vec2): Vec2 { Vec2(a.x + b.x, a.y + b.y) }

  function Sub(a: Vec2, b: Vec2): Vec2 { Vec2(a.x - b.x, a.y - b.y) }

  function Scale(k: real, a: Vec2): Vec2 { Vec2(k * a.x, k * a.y) }

  /// Component-wise division, as the point type's `a / b` does.
  function DivComponents(a: Vec2, b: Vec2): Vec2
    requires b.x != 0.0 && b.y != 0.0
  {
    Vec2(a.x / b.x, a.y / b.y)
  }

  /// The z component of the cross product of `a` and `b` lifted to 3D.
  function Cross(a: Vec2, b: Vec2): real { a.x * b.y - a.y * b.x }

  /// Twice the signed area of the triangle p, q, r; zero iff they are collinear.
  function Orient(p: Vec2, q: Vec2, r: Vec2): real { Cross(Sub(q, p), Sub(r, p)) }

  /// Four corners in the winding order top-left, top-right, bottom-right, bottom-left.
  type Quad = q: seq<Vec2> | |q| == 4 witness [Zero, Zero, Zero, Zero]

  /// The index of a corner of a quad.
  type Corner = i: int | 0 <= i < 4

  /// Points of the viewer's space, the third coordinate pointing into the screen.
  datatype Vec3 = Vec3(x: real, y: real, z: real)

  function Add3(a: Vec3, b: Vec3): Vec3 { Vec3(a.x + b.x, a.y + b.y, a.z + b.z) }

  function Scale3(k: real, a: Vec3): Vec3 { Vec3(k * a.x, k * a.y, k * a.z) }

  /// Division of every coordinate by k, as the 3D point type's `a / k` does.
  function Div3(a: Vec3, k: real): Vec3
    requires k != 0.0
  {
    Vec3(a.x / k, a.y / k, a.z / k)
  }

  /// A point of the plane lifted to the given depth.
  function Lift(p: Vec2, z: real): Vec3 { Vec3(p.x, p.y, z) }
}
