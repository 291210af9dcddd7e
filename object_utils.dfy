/** Pose estimation of segmented objects (mir_perception_utils object utilities):
    the bounding-box pose, and the category-dependent pre-filter that the point-cloud
    pose estimator applies before its principal-axis computation. */
module ObjectUtils {
  import opened PointTypes
  import opened Vectors

  // ---------------------------------------------------------------------------
  // estimatePose from a bounding box
  // ---------------------------------------------------------------------------

  /** A bounding box: eight vertices in the fixed order where 0->1 and 0->3 are the two
      horizontal edges, 0->4 the vertical edge and 0..3 the base face; and its centre. */
  datatype BoundingBox = BoundingBox(vertices: seq<Vec3>, center: Vec3)

  /** The rotation-matrix columns n1, n2, n3 from which the source builds its quaternion. */
  datatype Frame = Frame(n1: Vec3, n2: Vec3, n3: Vec3)

  /** The pose written by the box estimator.  `frame` is None when an edge used as a
      normalisation denominator has length zero (the source then divides by zero). */
  datatype BoxPose = BoxPose(position: Vec3, frame: Option<Frame>)

  function Edge(box: BoundingBox, i: nat): Vec3
    requires |box.vertices| == 8 && 0 < i < 8
  {
    Sub(box.vertices[i], box.vertices[0])
  }

  /** object::estimatePose(const BoundingBox&, pose).  The three edge norms are square roots and
      are supplied by the caller; the quaternion built from the frame is not modelled. */
  function EstimateBoxPose(box: BoundingBox, norm01: real, norm03: real, norm04: real): (pose: BoxPose)
    requires |box.vertices| == 8
    requires IsNorm(norm01, Edge(box, 1)) && IsNorm(norm03, Edge(box, 3)) && IsNorm(norm04, Edge(box, 4))
    ensures pose.position.x == box.center.x && pose.position.y == box.center.y
    ensures pose.position.z
      == (box.vertices[0].z + box.vertices[1].z + box.vertices[2].z + box.vertices[3].z) / 4.0
    ensures pose.frame.None? <==>
      SqNorm(Edge(box, 4)) == 0.0 || (SqNorm(Edge(box, 1)) == 0.0 && SqNorm(Edge(box, 3)) == 0.0)
    ensures pose.frame.Some? ==>
      var f := pose.frame.value;
      && f.n3 == Scale(Edge(box, 4), 1.0 / norm04)
      && (SqNorm(Edge(box, 1)) > SqNorm(Edge(box, 3)) ==> f.n1 == Scale(Edge(box, 1), 1.0 / norm01))
      && (SqNorm(Edge(box, 1)) <= SqNorm(Edge(box, 3)) ==> f.n1 == Scale(Edge(box, 3), 1.0 / norm03))
      && f.n2 == Cross(f.n3, f.n1)
      && SqNorm(f.n1) == 1.0 && SqNorm(f.n3) == 1.0
      && Dot(f.n2, f.n1) == 0.0 && Dot(f.n2, f.n3) == 0.0
  {
    var v := box.vertices;
    var position := Vec3(box.center.x, box.center.y, (v[0].z + v[1].z + v[2].z + v[3].z) / 4.0);
    NormOrderIsSqNormOrder(norm01, Edge(box, 1), norm03, Edge(box, 3));
    NormOrderIsSqNormOrder(norm03, Edge(box, 3), norm01, Edge(box, 1));
    NormOrderIsSqNormOrder(norm04, Edge(box, 4), norm01, Edge(box, 1));
    var first := if norm01 > norm03 then Edge(box, 1) else Edge(box, 3);
    var firstNorm := if norm01 > norm03 then norm01 else norm03;
    if norm04 == 0.0 || firstNorm == 0.0 then
      BoxPose(position, None)
    else
      var n3 := Scale(Edge(box, 4), 1.0 / norm04);
      var n1 := Scale(first, 1.0 / firstNorm);
      var n2 := Cross(n3, n1);
      NormalizedIsUnit(norm04, Edge(box, 4));
      NormalizedIsUnit(firstNorm, first);
      CrossOrthogonal(n3, n1);
      BoxPose(position, Some(Frame(n1, n2, n3)))
  }

  /** When the chosen horizontal edge is perpendicular to the vertical edge (as in a
      rectangular box), the frame is orthonormal: n1 is perpendicular to n3 and n2 is a unit vector. */
  lemma BoxFrameOrthonormal(box: BoundingBox, norm01: real, norm03: real, norm04: real)
    requires |box.vertices| == 8
    requires IsNorm(norm01, Edge(box, 1)) && IsNorm(norm03, Edge(box, 3)) && IsNorm(norm04, Edge(box, 4))
    requires Dot(Edge(box, 1), Edge(box, 4)) == 0.0 && Dot(Edge(box, 3), Edge(box, 4)) == 0.0
    requires EstimateBoxPose(box, norm01, norm03, norm04).frame.Some?
    ensures var f := EstimateBoxPose(box, norm01, norm03, norm04).frame.value;
      Dot(f.n1, f.n3) == 0.0 && SqNorm(f.n2) == 1.0
  {
    var f := EstimateBoxPose(box, norm01, norm03, norm04).frame.value;
    var first, firstNorm :=
      if SqNorm(Edge(box, 1)) > SqNorm(Edge(box, 3)) then Edge(box, 1) else Edge(box, 3),
      if SqNorm(Edge(box, 1)) > SqNorm(Edge(box, 3)) then norm01 else norm03;
    assert f.n1 == Scale(first, 1.0 / firstNorm);
    DotScale(first, 1.0 / firstNorm, Edge(box, 4), 1.0 / norm04);
    assert Dot(f.n1, f.n3) == 0.0;
    LagrangeIdentity(f.n3, f.n1);
    assert Dot(f.n3, f.n1) == Dot(f.n1, f.n3);
  }

  // ---------------------------------------------------------------------------
  // estimatePose from a point cloud: the category-dependent pre-filter
  // ---------------------------------------------------------------------------

  /** FLT_MAX, the value pcl::getMinMax3D starts from. */
  const FloatMax: real := 340282346638528859811704183484516925440.0

  /** The z band kept for cavity objects ends this far below the highest point ... */
  const CavityTopMargin: real := 0.015
  /** ... or this far for the cavity object named "M20_H". */
  const CavityTopMarginM20H: real := 0.02
  /** The height every surviving cavity point is flattened to. */
  const CavityFlatZ: real := 0.015

  /** pcl::getMinMax3D restricted to z, over the points whose three coordinates are finite;
      (FloatMax, -FloatMax) when there is none. */
  function MinMaxZ(cloud: seq<Point>): (real, real)
  {
    if cloud == [] then (FloatMax, -FloatMax)
    else
      var rest := MinMaxZ(cloud[..|cloud| - 1]);
      var p := cloud[|cloud| - 1];
      if !IsFinite(p) then rest
      else if forall i :: 0 <= i < |cloud| - 1 ==> !IsFinite(cloud[i]) then (p.z.v, p.z.v)
      else
        (if p.z.v < rest.0 then p.z.v else rest.0, if p.z.v > rest.1 then p.z.v else rest.1)
  }

  /** The extent bounds the z of every finite point and both ends are reached by one; without a
      finite point it stays at (FLT_MAX, -FLT_MAX). */
  lemma {:induction false} MinMaxZBounds(cloud: seq<Point>)
    ensures var r := MinMaxZ(cloud);
      forall i :: 0 <= i < |cloud| && IsFinite(cloud[i]) ==> r.0 <= cloud[i].z.v <= r.1
    ensures var r := MinMaxZ(cloud);
      (exists i :: 0 <= i < |cloud| && IsFinite(cloud[i])) ==>
        (exists i :: 0 <= i < |cloud| && IsFinite(cloud[i]) && cloud[i].z.v == r.0)
        && (exists i :: 0 <= i < |cloud| && IsFinite(cloud[i]) && cloud[i].z.v == r.1)
    ensures (forall i :: 0 <= i < |cloud| ==> !IsFinite(cloud[i])) ==> MinMaxZ(cloud) == (FloatMax, -FloatMax)
  {
    if cloud != [] {
      var front := cloud[..|cloud| - 1];
      MinMaxZBounds(front);
      assert forall i :: 0 <= i < |front| ==> front[i] == cloud[i];
    }
  }

  /** The z band kept by pcl::PassThrough on field "z" (the library's filter is not part of
      this model; it is taken to keep, in order, the points whose z is finite and within [lo, hi]). */
  predicate InBand(p: Point, lo: real, hi: real) {
    p.z.Finite? && lo <= p.z.v <= hi
  }

  function PassThroughZ(cloud: seq<Point>, lo: real, hi: real): (r: seq<Point>)
    ensures |r| <= |cloud|
    ensures forall p :: p in r <==> p in cloud && InBand(p, lo, hi)
  {
    if cloud == [] then []
    else if InBand(cloud[0], lo, hi) then [cloud[0]] + PassThroughZ(cloud[1..], lo, hi)
    else PassThroughZ(cloud[1..], lo, hi)
  }

  /** A band whose lower limit exceeds its upper limit keeps nothing. */
  lemma {:induction false} EmptyBand(cloud: seq<Point>, lo: real, hi: real)
    requires lo > hi
    ensures PassThroughZ(cloud, lo, hi) == []
  {
    if cloud != [] {
      EmptyBand(cloud[1..], lo, hi);
    }
  }

  /** The branch of the point-cloud estimatePose, decided by category, shape and name. */
  datatype Policy =
    | SkipRoundAtwork     // category "atwork" with shape "sphere" or "flat"
    | Cavity              // category "cavity"
    | CavityM20H          // category "cavity", object "M20_H"
    | SkipNamedObject     // objects "M20", "M30" and "F20_20_G"
    | DefaultPolicy

  function SelectPolicy(name: string, shape: string, category: string): (p: Policy)
    ensures p == SkipRoundAtwork <==> category == "atwork" && (shape == "sphere" || shape == "flat")
    ensures p == Cavity <==> category == "cavity" && name != "M20_H"
    ensures p == CavityM20H <==> category == "cavity" && name == "M20_H"
    ensures p == SkipNamedObject <==>
      category != "cavity" && !(category == "atwork" && (shape == "sphere" || shape == "flat"))
      && (name == "M20" || name == "M30" || name == "F20_20_G")
  {
    assert "cavity" != "atwork" by {
      assert "cavity"[0] != "atwork"[0];
    }
    if category == "atwork" && (shape == "sphere" || shape == "flat") then SkipRoundAtwork
    else if category == "cavity" then (if name == "M20_H" then CavityM20H else Cavity)
    else if name != "M20" && name != "M30" && name != "F20_20_G" then DefaultPolicy
    else SkipNamedObject
  }

  /** What the chosen branch does to the cloud: keep it whole, or cut a z band (and, for
      cavities, flatten what survives). */
  datatype PreFilter =
    | Unfiltered
    | CavityBand(lo: real, hi: real)
    | DefaultBand(lo: real, hi: real)

  /** The pass-through limits of each branch, from the cloud's z extent and the two offsets. */
  function PolicyFilter(policy: Policy, cloud: seq<Point>, minOffset: real, maxOffset: real): PreFilter
  {
    var (minZ, maxZ) := MinMaxZ(cloud);
    var limitMin := minZ + minOffset;
    var limitMax := maxZ + maxOffset;
    match policy
    case SkipRoundAtwork => Unfiltered
    case Cavity => CavityBand(limitMin, maxZ - CavityTopMargin)
    case CavityM20H => CavityBand(limitMin, maxZ - CavityTopMarginM20H)
    case SkipNamedObject => Unfiltered
    case DefaultPolicy => DefaultBand(limitMin, limitMax)
  }

  function SelectPreFilter(cloud: seq<Point>, name: string, shape: string,
                           minOffset: real, maxOffset: real, category: string): PreFilter
  {
    PolicyFilter(SelectPolicy(name, shape, category), cloud, minOffset, maxOffset)
  }

  /** The cavity flattening of one point: a finite z becomes CavityFlatZ; NaN and Inf stay. */
  function Flatten(p: Point): Point {
    if !p.z.NaN? && !p.z.Inf? then p.(z := Finite(CavityFlatZ)) else p
  }

  function Flattened(cloud: seq<Point>): (r: seq<Point>)
    ensures |r| == |cloud|
  {
    seq(|cloud|, i requires 0 <= i < |cloud| => Flatten(cloud[i]))
  }

  /** The cloud that the point-cloud estimatePose returns (and computes the pose from). */
  function FilteredCloud(cloud: seq<Point>, name: string, shape: string,
                         minOffset: real, maxOffset: real, category: string): seq<Point>
  {
    match SelectPreFilter(cloud, name, shape, minOffset, maxOffset, category)
    case Unfiltered => cloud
    case CavityBand(lo, hi) => Flattened(PassThroughZ(cloud, lo, hi))
    case DefaultBand(lo, hi) => PassThroughZ(cloud, lo, hi)
  }

  /** The in-place loop of the cavity branch: overwrite every finite z with CavityFlatZ. */
  method FlattenCavity(points: array<Point>)
    modifies points
    ensures points[..] == Flattened(old(points[..]))
    ensures forall i :: 0 <= i < points.Length ==>
      points[i].x == old(points[i]).x && points[i].y == old(points[i]).y && points[i].rgba == old(points[i]).rgba
    ensures forall i :: 0 <= i < points.Length ==>
      if old(points[i]).z.Finite? then points[i].z == Finite(CavityFlatZ) else points[i].z == old(points[i]).z
  {
    var i := 0;
    while i < points.Length
      invariant 0 <= i <= points.Length
      invariant forall j :: 0 <= j < i ==> points[j] == Flatten(old(points[j]))
      invariant forall j :: i <= j < points.Length ==> points[j] == old(points[j])
    {
      if !points[i].z.NaN? && !points[i].z.Inf? {
        points[i] := points[i].(z := Finite(CavityFlatZ));
      }
      i := i + 1;
    }
  }

  /** The filtering half of object::estimatePose(cloud, pose, object, shape, offsets, category):
      returns the cloud from which the pose is computed. */
  method EstimatePoseFilter(cloud: seq<Point>, name: string, shape: string,
                            minOffset: real, maxOffset: real, category: string)
    returns (filtered: seq<Point>)
    ensures filtered == FilteredCloud(cloud, name, shape, minOffset, maxOffset, category)
  {
    if category == "atwork" && (shape == "sphere" || shape == "flat") {
      filtered := cloud;
      AtworkRoundObjectsUnfiltered(cloud, name, shape, minOffset, maxOffset);
    } else {
      var (minZ, maxZ) := MinMaxZ(cloud);
      var limitMin := minZ + minOffset;
      var limitMax := maxZ + maxOffset;
      if category == "cavity" {
        limitMax := maxZ - CavityTopMargin;
        if name == "M20_H" {
          limitMax := maxZ - CavityTopMarginM20H;
        }
        var band := PassThroughZ(cloud, limitMin, limitMax);
        var points := new Point[|band|](i requires 0 <= i < |band| => band[i]);
        assert points[..] == band;
        FlattenCavity(points);
        filtered := points[..];
        CavityBandLimits(cloud, name, shape, minOffset, maxOffset, maxOffset);
        assert SelectPreFilter(cloud, name, shape, minOffset, maxOffset, category) == CavityBand(limitMin, limitMax);
        assert FilteredCloud(cloud, name, shape, minOffset, maxOffset, category) == Flattened(band);
      } else {
        if name != "M20" && name != "M30" && name != "F20_20_G" {
          filtered := PassThroughZ(cloud, limitMin, limitMax);
          DefaultBandLimits(cloud, name, shape, minOffset, maxOffset, category);
        } else {
          filtered := cloud;
          NamedObjectsUnfiltered(cloud, name, shape, minOffset, maxOffset, category);
        }
      }
    }
  }

  /** atwork spheres and flat objects are returned unfiltered. */
  lemma AtworkRoundObjectsUnfiltered(cloud: seq<Point>, name: string, shape: string,
                                     minOffset: real, maxOffset: real)
    requires shape == "sphere" || shape == "flat"
    ensures FilteredCloud(cloud, name, shape, minOffset, maxOffset, "atwork") == cloud
  {
  }

  /** Cavity objects: the band runs from min z + the lower offset to max z minus a fixed margin
      (larger for "M20_H"); the upper offset plays no part. */
  lemma CavityBandLimits(cloud: seq<Point>, name: string, shape: string,
                         minOffset: real, maxOffset: real, otherMaxOffset: real)
    ensures SelectPreFilter(cloud, name, shape, minOffset, maxOffset, "cavity")
      == CavityBand(MinMaxZ(cloud).0 + minOffset,
                    MinMaxZ(cloud).1 - (if name == "M20_H" then 0.02 else 0.015))
    ensures FilteredCloud(cloud, name, shape, minOffset, maxOffset, "cavity")
      == FilteredCloud(cloud, name, shape, minOffset, otherMaxOffset, "cavity")
  {
    assert SelectPolicy(name, shape, "cavity") == if name == "M20_H" then CavityM20H else Cavity;
  }

  /** Each point of r is a point of the cloud inside the band [lo, hi], moved to the fixed
      height with its x, y and colour kept. */
  predicate FlattenedFrom(r: seq<Point>, cloud: seq<Point>, lo: real, hi: real) {
    forall i :: 0 <= i < |r| ==> FlatBandPoint(r[i], cloud, lo, hi)
  }

  /** q is a point of the cloud inside the band, moved to the fixed height. */
  predicate FlatBandPoint(q: Point, cloud: seq<Point>, lo: real, hi: real) {
    exists p :: p in cloud && InBand(p, lo, hi) && q == p.(z := Finite(CavityFlatZ))
  }

  /** Flattening the band: each result point is an input point inside the band, moved to the
      fixed height with its x, y and colour kept. */
  lemma FlattenedBand(cloud: seq<Point>, lo: real, hi: real)
    ensures FlattenedFrom(Flattened(PassThroughZ(cloud, lo, hi)), cloud, lo, hi)
  {
    var band := PassThroughZ(cloud, lo, hi);
    var r := Flattened(band);
    forall i | 0 <= i < |r|
      ensures FlatBandPoint(r[i], cloud, lo, hi)
    {
      var p := band[i];
      assert p in band;
      assert p in cloud && InBand(p, lo, hi);
      assert r[i] == Flatten(p) == p.(z := Finite(CavityFlatZ));
    }
  }

  /** Every point that the cavity branch returns is a point of the input cloud inside the
      cavity band, moved to the fixed height with its x, y and colour kept; the count is the
      band's count. */
  lemma CavityResultFlattened(cloud: seq<Point>, name: string, shape: string, minOffset: real, maxOffset: real)
    ensures SelectPreFilter(cloud, name, shape, minOffset, maxOffset, "cavity").CavityBand?
    ensures var f := SelectPreFilter(cloud, name, shape, minOffset, maxOffset, "cavity");
      |FilteredCloud(cloud, name, shape, minOffset, maxOffset, "cavity")| == |PassThroughZ(cloud, f.lo, f.hi)|
    ensures var f := SelectPreFilter(cloud, name, shape, minOffset, maxOffset, "cavity");
      FlattenedFrom(FilteredCloud(cloud, name, shape, minOffset, maxOffset, "cavity"), cloud, f.lo, f.hi)
  {
    assert SelectPolicy(name, shape, "cavity") == if name == "M20_H" then CavityM20H else Cavity;
    var f := SelectPreFilter(cloud, name, shape, minOffset, maxOffset, "cavity");
    var band := PassThroughZ(cloud, f.lo, f.hi);
    assert FilteredCloud(cloud, name, shape, minOffset, maxOffset, "cavity") == Flattened(band);
    FlattenedBand(cloud, f.lo, f.hi);
  }

  /** Outside the cavity category, the three named bulky objects are returned unfiltered ... */
  lemma NamedObjectsUnfiltered(cloud: seq<Point>, name: string, shape: string,
                               minOffset: real, maxOffset: real, category: string)
    requires category != "cavity" && !(category == "atwork" && (shape == "sphere" || shape == "flat"))
    requires name == "M20" || name == "M30" || name == "F20_20_G"
    ensures FilteredCloud(cloud, name, shape, minOffset, maxOffset, category) == cloud
  {
  }

  /** ... and every other object is cut to [min z + lower offset, max z + upper offset]. */
  lemma DefaultBandLimits(cloud: seq<Point>, name: string, shape: string,
                          minOffset: real, maxOffset: real, category: string)
    requires category != "cavity" && !(category == "atwork" && (shape == "sphere" || shape == "flat"))
    requires name != "M20" && name != "M30" && name != "F20_20_G"
    ensures FilteredCloud(cloud, name, shape, minOffset, maxOffset, category)
      == PassThroughZ(cloud, MinMaxZ(cloud).0 + minOffset, MinMaxZ(cloud).1 + maxOffset)
  {
    assert SelectPolicy(name, shape, category) == DefaultPolicy;
    var (minZ, maxZ) := MinMaxZ(cloud);
    assert SelectPreFilter(cloud, name, shape, minOffset, maxOffset, category)
        == DefaultBand(minZ + minOffset, maxZ + maxOffset);
  }

  /** With a non-positive lower and a non-negative upper offset the default band keeps every
      finite point. */
  lemma DefaultBandKeepsFinitePoints(cloud: seq<Point>, minOffset: real, maxOffset: real, i: nat)
    requires minOffset <= 0.0 <= maxOffset
    requires i < |cloud| && IsFinite(cloud[i])
    ensures cloud[i] in PassThroughZ(cloud, MinMaxZ(cloud).0 + minOffset, MinMaxZ(cloud).1 + maxOffset)
  {
    MinMaxZBounds(cloud);
  }

  /** A cloud without a finite point filters to nothing in either band branch, as long as the
      offsets are below FLT_MAX in size. */
  lemma NoFinitePointsFilteredEmpty(cloud: seq<Point>, name: string, shape: string,
                                    minOffset: real, maxOffset: real, category: string)
    requires forall i :: 0 <= i < |cloud| ==> !IsFinite(cloud[i])
    requires -FloatMax < minOffset < FloatMax && -FloatMax < maxOffset < FloatMax
    requires !SelectPreFilter(cloud, name, shape, minOffset, maxOffset, category).Unfiltered?
    ensures FilteredCloud(cloud, name, shape, minOffset, maxOffset, category) == []
  {
    var r := FilteredCloud(cloud, name, shape, minOffset, maxOffset, category);
    var f := SelectPreFilter(cloud, name, shape, minOffset, maxOffset, category);
    var band := PassThroughZ(cloud, f.lo, f.hi);
    MinMaxZBounds(cloud);
    EmptyBand(cloud, f.lo, f.hi);
    if f.CavityBand? {
      assert r == Flattened(band);
    } else {
      assert r == band;
    }
  }
}
