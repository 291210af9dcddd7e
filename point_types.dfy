/** Point types shared by the occupancy octree and the pose estimator:
    a PCL XYZRGB point whose coordinates may be NaN or infinite. */
module PointTypes {

  datatype Option<T> = None | Some(value: T)

  /** One floating-point coordinate, kept abstract: a finite value, NaN, or an infinity. */
  datatype Coord = Finite(v: real) | NaN | Inf(negative: bool)

  predicate IsFiniteCoord(c: Coord) {
    c.Finite?
  }

  /** pcl::PointXYZRGB: three coordinates and the packed 32-bit colour `rgba`. */
  datatype Point = Point(x: Coord, y: Coord, z: Coord, rgba: bv32)

  /** std::isfinite on all three coordinates. */
  predicate IsFinite(p: Point) {
    p.x.Finite? && p.y.Finite? && p.z.Finite?
  }

  /** The finite points of a cloud, in cloud order. */
  function FinitePoints(cloud: seq<Point>): (r: seq<Point>)
    ensures |r| <= |cloud|
    ensures forall i :: 0 <= i < |r| ==> IsFinite(r[i])
    ensures forall p :: p in r <==> p in cloud && IsFinite(p)
  {
    if cloud == [] then []
    else if IsFinite(cloud[0]) then [cloud[0]] + FinitePoints(cloud[1..])
    else FinitePoints(cloud[1..])
  }
}
