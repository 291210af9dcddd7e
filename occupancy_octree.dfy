/** The coloured occupancy octree: a voxel grid of fixed resolution that records,
    per occupied voxel, one packed 32-bit colour.  The octree's tree structure is
    abstracted to the map from integer voxel keys to the stored colour. */
module OccupancyOctree {
  import opened PointTypes

  type Resolution = r: real | r > 0.0 witness 1.0

  /** Integer voxel coordinates, one per axis. */
  datatype VoxelKey = VoxelKey(i: int, j: int, k: int)

  type VoxelMap = map<VoxelKey, bv32>

  /** The voxel index along one axis: floor(c / resolution). */
  function AxisKey(c: real, resolution: Resolution): (key: int)
    ensures key as real * resolution <= c < (key + 1) as real * resolution
  {
    var q := c / resolution;
    assert q * resolution == c;
    ScaleMonotone(q.Floor as real, q, resolution);
    var key := q.Floor;
    assert q < (key + 1) as real;
    ScaleStrict(q, (key + 1) as real, resolution);
    assert c < (key + 1) as real * resolution;
    key
  }

  lemma ScaleMonotone(a: real, b: real, r: real)
    requires a <= b && r > 0.0
    ensures a * r <= b * r
  {
  }

  lemma ScaleStrict(a: real, b: real, r: real)
    requires a < b && r > 0.0
    ensures a * r < b * r
  {
  }

  /** genOctreeKeyforPoint: the voxel that a finite point falls in. */
  function KeyOf(p: Point, resolution: Resolution): (key: VoxelKey)
    requires IsFinite(p)
    ensures key.i as real * resolution <= p.x.v < (key.i + 1) as real * resolution
    ensures key.j as real * resolution <= p.y.v < (key.j + 1) as real * resolution
    ensures key.k as real * resolution <= p.z.v < (key.k + 1) as real * resolution
  {
    VoxelKey(AxisKey(p.x.v, resolution), AxisKey(p.y.v, resolution), AxisKey(p.z.v, resolution))
  }

  /** The centre of a voxel along one axis: (key + 0.5) * resolution. */
  function AxisCentre(key: int, resolution: Resolution): real {
    (key as real + 0.5) * resolution
  }

  /** genLeafNodeCenterFromOctreeKey: the centre point of a voxel, colour not yet set. */
  function Centre(key: VoxelKey, resolution: Resolution): (p: Point)
    ensures IsFinite(p)
  {
    Point(Finite(AxisCentre(key.i, resolution)), Finite(AxisCentre(key.j, resolution)),
          Finite(AxisCentre(key.k, resolution)), 0)
  }

  /** The centre of a voxel lies in that voxel. */
  lemma AxisKeyOfCentre(key: int, resolution: Resolution)
    ensures AxisKey(AxisCentre(key, resolution), resolution) == key
  {
    var c := AxisCentre(key, resolution);
    var r := AxisKey(c, resolution);
    assert r as real * resolution <= c < (r + 1) as real * resolution;
    assert c == key as real * resolution + 0.5 * resolution;
    if r < key {
      ScaleMonotone((r + 1) as real, key as real, resolution);
    } else if r > key {
      ScaleMonotone((key + 1) as real, r as real, resolution);
    }
  }

  lemma KeyOfCentre(key: VoxelKey, resolution: Resolution)
    ensures KeyOf(Centre(key, resolution), resolution) == key
  {
    AxisKeyOfCentre(key.i, resolution);
    AxisKeyOfCentre(key.j, resolution);
    AxisKeyOfCentre(key.k, resolution);
  }

  /** setOccupiedVoxelAtPoint on the abstract map: the point's voxel now holds its colour
      (the leaf's stored index is overwritten by every later point in that voxel). */
  function Insert(m: VoxelMap, resolution: Resolution, p: Point): VoxelMap
    requires IsFinite(p)
  {
    m[KeyOf(p, resolution) := p.rgba]
  }

  /** One step of setOccupiedVoxelsAtPointsFromCloud: a non-finite point is skipped. */
  function Step(m: VoxelMap, resolution: Resolution, p: Point): VoxelMap {
    if IsFinite(p) then Insert(m, resolution, p) else m
  }

  /** setOccupiedVoxelsAtPointsFromCloud on the abstract map: the points are taken in cloud order. */
  function InsertCloud(m: VoxelMap, resolution: Resolution, cloud: seq<Point>): VoxelMap
  {
    if cloud == [] then m
    else Step(InsertCloud(m, resolution, cloud[..|cloud| - 1]), resolution, cloud[|cloud| - 1])
  }

  /** Reference definition: insert every point of an all-finite sequence, one by one. */
  function InsertEach(m: VoxelMap, resolution: Resolution, points: seq<Point>): VoxelMap
    requires forall i :: 0 <= i < |points| ==> IsFinite(points[i])
  {
    if points == [] then m
    else Insert(InsertEach(m, resolution, points[..|points| - 1]), resolution, points[|points| - 1])
  }

  /** Does some finite point of the cloud fall in voxel `key`? */
  predicate Hits(cloud: seq<Point>, resolution: Resolution, key: VoxelKey) {
    exists i :: 0 <= i < |cloud| && IsFinite(cloud[i]) && KeyOf(cloud[i], resolution) == key
  }

  /** The colour of the last finite point of the cloud that falls in voxel `key`. */
  function LastColor(cloud: seq<Point>, resolution: Resolution, key: VoxelKey): bv32
    requires Hits(cloud, resolution, key)
  {
    var last := cloud[|cloud| - 1];
    if IsFinite(last) && KeyOf(last, resolution) == key then last.rgba
    else
      assert Hits(cloud[..|cloud| - 1], resolution, key) by {
        var i :| 0 <= i < |cloud| && IsFinite(cloud[i]) && KeyOf(cloud[i], resolution) == key;
        assert i < |cloud| - 1 && cloud[..|cloud| - 1][i] == cloud[i];
      }
      LastColor(cloud[..|cloud| - 1], resolution, key)
  }

  lemma {:induction false} FinitePointsConcat(a: seq<Point>, b: seq<Point>)
    ensures FinitePoints(a + b) == FinitePoints(a) + FinitePoints(b)
  {
    if a == [] {
      assert a + b == b;
    } else {
      assert (a + b)[0] == a[0] && (a + b)[1..] == a[1..] + b;
      FinitePointsConcat(a[1..], b);
    }
  }

  /** The finite points of a cloud with one more point appended. */
  lemma FinitePointsSnoc(front: seq<Point>, last: Point)
    ensures FinitePoints(front + [last]) == FinitePoints(front) + (if IsFinite(last) then [last] else [])
  {
    FinitePointsConcat(front, [last]);
    assert [last][1..] == [];
  }

  /** Inserting a cloud equals inserting its finite points one by one, in cloud order. */
  lemma {:induction false} InsertCloudIsInsertEach(m: VoxelMap, resolution: Resolution, cloud: seq<Point>)
    ensures InsertCloud(m, resolution, cloud) == InsertEach(m, resolution, FinitePoints(cloud))
  {
    if cloud != [] {
      var front, last := cloud[..|cloud| - 1], cloud[|cloud| - 1];
      assert cloud == front + [last];
      FinitePointsSnoc(front, last);
      InsertCloudIsInsertEach(m, resolution, front);
      var fs := FinitePoints(front);
      if IsFinite(last) {
        var gs := fs + [last];
        assert gs[..|gs| - 1] == fs && gs[|gs| - 1] == last;
      } else {
        assert fs + [] == fs;
      }
    }
  }

  /** A point with a non-finite coordinate, wherever it stands in the cloud, changes nothing. */
  lemma NonFinitePointIsSkipped(m: VoxelMap, resolution: Resolution, before: seq<Point>, p: Point, after: seq<Point>)
    requires !IsFinite(p)
    ensures InsertCloud(m, resolution, before + [p] + after) == InsertCloud(m, resolution, before + after)
  {
    FinitePointsConcat(before + [p], after);
    FinitePointsConcat(before, [p]);
    FinitePointsConcat(before, after);
    assert FinitePoints([p]) == [] by {
      assert [p][1..] == [];
    }
    assert FinitePoints(before + [p]) == FinitePoints(before);
    InsertCloudIsInsertEach(m, resolution, before + [p] + after);
    InsertCloudIsInsertEach(m, resolution, before + after);
  }

  /** What the map holds after a cloud is inserted: every voxel hit by a finite point holds the
      colour of the last such point; every other voxel is as it was; nothing is removed. */
  lemma {:induction false} InsertCloudLookup(m: VoxelMap, resolution: Resolution, cloud: seq<Point>, key: VoxelKey)
    ensures key in InsertCloud(m, resolution, cloud) <==> key in m || Hits(cloud, resolution, key)
    ensures Hits(cloud, resolution, key) ==>
      InsertCloud(m, resolution, cloud)[key] == LastColor(cloud, resolution, key)
    ensures !Hits(cloud, resolution, key) && key in m ==> InsertCloud(m, resolution, cloud)[key] == m[key]
  {
    if cloud != [] {
      var front, last := cloud[..|cloud| - 1], cloud[|cloud| - 1];
      InsertCloudLookup(m, resolution, front, key);
      if Hits(front, resolution, key) {
        var i :| 0 <= i < |front| && IsFinite(front[i]) && KeyOf(front[i], resolution) == key;
        assert cloud[i] == front[i];
      }
      if Hits(cloud, resolution, key) && !(IsFinite(last) && KeyOf(last, resolution) == key) {
        var i :| 0 <= i < |cloud| && IsFinite(cloud[i]) && KeyOf(cloud[i], resolution) == key;
        assert i < |front| && front[i] == cloud[i];
      }
    }
  }

  /** Inserting the same cloud twice leaves the map as inserting it once. */
  lemma InsertCloudIdempotent(m: VoxelMap, resolution: Resolution, cloud: seq<Point>)
    ensures InsertCloud(InsertCloud(m, resolution, cloud), resolution, cloud) == InsertCloud(m, resolution, cloud)
  {
    var once := InsertCloud(m, resolution, cloud);
    var twice := InsertCloud(once, resolution, cloud);
    forall key
      ensures key in twice <==> key in once
      ensures key in twice ==> twice[key] == once[key]
    {
      InsertCloudLookup(m, resolution, cloud, key);
      InsertCloudLookup(once, resolution, cloud, key);
    }
  }

  /** Two points in the same voxel occupy one voxel, which holds the later point's colour;
      inserting a point again changes nothing. */
  lemma SameVoxelOccupiedOnce(m: VoxelMap, resolution: Resolution, p: Point, q: Point)
    requires IsFinite(p) && IsFinite(q) && KeyOf(p, resolution) == KeyOf(q, resolution)
    ensures Insert(Insert(m, resolution, p), resolution, q) == Insert(m, resolution, q)
    ensures |Insert(Insert(m, resolution, p), resolution, q)| == |Insert(m, resolution, p)|
    ensures Insert(Insert(m, resolution, p), resolution, p) == Insert(m, resolution, p)
  {
    assert Insert(Insert(m, resolution, p), resolution, q).Keys == Insert(m, resolution, p).Keys;
  }

  /** `centres` lists the centre of every voxel of `m`, each voxel once and nothing else. */
  predicate CentresOf(m: VoxelMap, resolution: Resolution, centres: seq<Point>) {
    && (forall i :: 0 <= i < |centres| ==>
          IsFinite(centres[i]) && KeyOf(centres[i], resolution) in m
          && centres[i] == Centre(KeyOf(centres[i], resolution), resolution))
    && (forall i, j :: 0 <= i < j < |centres| ==>
          KeyOf(centres[i], resolution) != KeyOf(centres[j], resolution))
    && (forall key :: key in m ==>
          exists i :: 0 <= i < |centres| && centres[i] == Centre(key, resolution))
  }

  /** `points` lists the centre of every voxel of `m` carrying that voxel's colour, each voxel
      once and nothing else. */
  predicate ColoredCentresOf(m: VoxelMap, resolution: Resolution, points: seq<Point>) {
    && (forall i :: 0 <= i < |points| ==>
          IsFinite(points[i]) && KeyOf(points[i], resolution) in m
          && points[i] == Centre(KeyOf(points[i], resolution), resolution).(rgba := m[KeyOf(points[i], resolution)]))
    && (forall i, j :: 0 <= i < j < |points| ==>
          KeyOf(points[i], resolution) != KeyOf(points[j], resolution))
    && (forall key :: key in m ==>
          exists i :: 0 <= i < |points| && points[i] == Centre(key, resolution).(rgba := m[key]))
  }

  /** Colouring every centre with its own voxel's colour yields one coloured centre per voxel. */
  lemma ColoredCentres(m: VoxelMap, resolution: Resolution, centres: seq<Point>, points: seq<Point>)
    requires CentresOf(m, resolution, centres)
    requires |points| == |centres|
    requires forall i :: 0 <= i < |points| ==> points[i] == centres[i].(rgba := m[KeyOf(centres[i], resolution)])
    ensures ColoredCentresOf(m, resolution, points)
  {
    forall i | 0 <= i < |points|
      ensures KeyOf(points[i], resolution) == KeyOf(centres[i], resolution)
    {
    }
    forall key | key in m
      ensures exists i :: 0 <= i < |points| && points[i] == Centre(key, resolution).(rgba := m[key])
    {
      var i :| 0 <= i < |centres| && centres[i] == Centre(key, resolution);
      KeyOfCentre(key, resolution);
      assert points[i] == Centre(key, resolution).(rgba := m[key]);
    }
  }

  /** The centres of a list of distinct occupied voxels that names every occupied voxel: each is
      the centre of its own voxel, no voxel comes twice, every voxel comes once. */
  lemma CentresOfDistinctKeys(m: VoxelMap, resolution: Resolution, keys: seq<VoxelKey>, centres: seq<Point>)
    requires |centres| == |keys|
    requires forall i :: 0 <= i < |keys| ==> keys[i] in m && centres[i] == Centre(keys[i], resolution)
    requires forall i, j :: 0 <= i < j < |keys| ==> keys[i] != keys[j]
    requires forall key :: key in m ==> key in keys
    ensures CentresOf(m, resolution, centres)
  {
    forall i | 0 <= i < |centres|
      ensures KeyOf(centres[i], resolution) == keys[i]
    {
      KeyOfCentre(keys[i], resolution);
    }
    forall key | key in m
      ensures exists i :: 0 <= i < |centres| && centres[i] == Centre(key, resolution)
    {
      var i :| 0 <= i < |keys| && keys[i] == key;
    }
  }

  /** pcl::octree::OctreePointCloud specialised to coloured occupancy: the leaf of each
      occupied voxel stores the colour of the last point inserted there. */
  class OctreePointCloudOccupancyColored {
    const resolution: Resolution
    var voxels: VoxelMap

    constructor (resolution: Resolution)
      ensures this.resolution == resolution && voxels == map[]
    {
      this.resolution := resolution;
      voxels := map[];
    }

    /** setOccupiedVoxelAtPoint: create (or reuse) the point's leaf and store its colour. */
    method SetOccupiedVoxelAtPoint(p: Point)
      requires IsFinite(p)
      modifies this
      ensures voxels == Insert(old(voxels), resolution, p)
      ensures KeyOf(p, resolution) in voxels && voxels[KeyOf(p, resolution)] == p.rgba
      ensures forall key :: key in old(voxels) ==> key in voxels
      ensures forall key :: key in old(voxels) && key != KeyOf(p, resolution) ==> voxels[key] == old(voxels)[key]
    {
      var key := KeyOf(p, resolution);
      voxels := voxels[key := p.rgba];
    }

    /** setOccupiedVoxelsAtPointsFromCloud: insert the finite points of the cloud in order. */
    method SetOccupiedVoxelsAtPointsFromCloud(cloud: seq<Point>)
      modifies this
      ensures voxels == InsertCloud(old(voxels), resolution, cloud)
    {
      var i := 0;
      while i < |cloud|
        invariant 0 <= i <= |cloud|
        invariant voxels == InsertCloud(old(voxels), resolution, cloud[..i])
      {
        assert cloud[..i + 1][..i] == cloud[..i];
        if IsFinite(cloud[i]) {
          SetOccupiedVoxelAtPoint(cloud[i]);
        }
        i := i + 1;
      }
      assert cloud[..i] == cloud;
    }

    /** getVoxelColorAtPoint: the colour stored in the point's voxel, 0 when it is unoccupied. */
    function GetVoxelColorAtPoint(p: Point): (color: bv32)
      reads this
      requires IsFinite(p)
      ensures KeyOf(p, resolution) !in voxels ==> color == 0
      ensures KeyOf(p, resolution) in voxels ==> color == voxels[KeyOf(p, resolution)]
    {
      var key := KeyOf(p, resolution);
      if key in voxels then voxels[key] else 0
    }

    /** The traversal of the octree's leaves: every occupied voxel exactly once, in an order
        the octree chooses. */
    method OccupiedKeys() returns (keys: seq<VoxelKey>)
      ensures |keys| == |voxels|
      ensures forall i :: 0 <= i < |keys| ==> keys[i] in voxels
      ensures forall i, j :: 0 <= i < j < |keys| ==> keys[i] != keys[j]
      ensures forall key :: key in voxels ==> key in keys
    {
      var pending := voxels.Keys;
      ghost var visited: set<VoxelKey> := {};
      keys := [];
      while pending != {}
        invariant pending + visited == voxels.Keys && pending !! visited
        invariant |keys| == |visited|
        invariant forall i :: 0 <= i < |keys| ==> keys[i] in visited
        invariant forall i, j :: 0 <= i < j < |keys| ==> keys[i] != keys[j]
        invariant forall key :: key in visited ==> key in keys
        decreases |pending|
      {
        var key :| key in pending;
        keys := keys + [key];
        pending := pending - {key};
        visited := visited + {key};
      }
      assert visited == voxels.Keys;
    }

    /** getOccupiedVoxelCenters: one centre per occupied voxel, in an order the octree chooses. */
    method OccupiedVoxelCenters() returns (centres: seq<Point>)
      ensures |centres| == |voxels|
      ensures CentresOf(voxels, resolution, centres)
    {
      var keys := OccupiedKeys();
      centres := seq(|keys|, i requires 0 <= i < |keys| => Centre(keys[i], resolution));
      CentresOfDistinctKeys(voxels, resolution, keys, centres);
    }

    /** The colouring loop of getOccupiedVoxelCentersWithColor: overwrite each point's colour
        in place with the colour stored in its voxel. */
    method ColorCenters(points: array<Point>)
      requires forall i :: 0 <= i < points.Length ==> IsFinite(points[i])
      modifies points
      ensures forall i :: 0 <= i < points.Length ==>
        points[i] == old(points[i]).(rgba := GetVoxelColorAtPoint(old(points[i])))
    {
      var i := 0;
      while i < points.Length
        invariant 0 <= i <= points.Length
        invariant forall j :: 0 <= j < i ==>
          points[j] == old(points[j]).(rgba := GetVoxelColorAtPoint(old(points[j])))
        invariant forall j :: i <= j < points.Length ==> points[j] == old(points[j])
      {
        var color := GetVoxelColorAtPoint(points[i]);
        points[i] := points[i].(rgba := color);
        i := i + 1;
      }
    }

    /** getOccupiedVoxelCentersWithColor: exactly one point per occupied voxel, at its centre,
        carrying that voxel's colour. */
    method GetOccupiedVoxelCentersWithColor() returns (points: seq<Point>)
      ensures |points| == |voxels|
      ensures ColoredCentresOf(voxels, resolution, points)
    {
      var centres := OccupiedVoxelCenters();
      var buffer := new Point[|centres|](i requires 0 <= i < |centres| => centres[i]);
      assert buffer[..] == centres;
      ColorCenters(buffer);
      points := buffer[..];
      ColoredCentres(voxels, resolution, centres, points);
    }
  }
}
