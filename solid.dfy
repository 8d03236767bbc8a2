/** The constructive-solid-geometry vocabulary the script asks RubyScad to emit.
    Only the nodes this program builds are present; RubyScad's rendering is not
    part of this model. */
module Solid {

  /** A polygon vertex `[x, y]`. */
  datatype Point = Point(x: real, y: real)

  /** A node of the OpenSCAD tree. Translations and rotations are about the z axis
      only, the one axis this program uses. `Difference` keeps `base` and removes
      `cut`; `Intersection` keeps what both sides share. */
  datatype SolidOp =
    | Union(children: seq<SolidOp>)
    | Difference(base: SolidOp, cut: SolidOp)
    | Intersection(left: SolidOp, right: SolidOp)
    | Translate(z: real, body: SolidOp)
    | Rotate(z: real, body: SolidOp)
    | LinearExtrude(height: real, scale: real, twist: real, body: SolidOp)
    | Polygon(points: seq<Point>)
    | Cylinder(r: real, h: real, center: bool)

  /** The point `pt` scaled about the origin by `f`, which is what `linear_extrude`'s
      `scale` does to the top face of the extruded polygon. */
  function ScalePoint(f: real, pt: Point): Point
  {
    Point(f * pt.x, f * pt.y)
  }

  /** `a` and `b` are the same tree, with the same parameters at every node, except
      that their polygons need only agree in the number of their vertices. */
  predicate SameFrame(a: SolidOp, b: SolidOp)
    decreases a
  {
    match a
    case Union(cs) =>
      b.Union? && |cs| == |b.children| &&
      forall i :: 0 <= i < |cs| ==> SameFrame(cs[i], b.children[i])
    case Difference(x, y) => b.Difference? && SameFrame(x, b.base) && SameFrame(y, b.cut)
    case Intersection(x, y) => b.Intersection? && SameFrame(x, b.left) && SameFrame(y, b.right)
    case Translate(z, x) => b.Translate? && b.z == z && SameFrame(x, b.body)
    case Rotate(z, x) => b.Rotate? && b.z == z && SameFrame(x, b.body)
    case LinearExtrude(h, s, t, x) =>
      b.LinearExtrude? && b.height == h && b.scale == s && b.twist == t && SameFrame(x, b.body)
    case Polygon(pts) => b.Polygon? && |b.points| == |pts|
    case Cylinder(_, _, _) => b == a
  }
}
