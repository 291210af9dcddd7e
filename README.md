# Object perception core of the b-it-bots @Work robot, in Dafny

This project models three parts of the perception stack of the MAS industrial robotics
software and proves properties of each part.

- **Coloured occupancy octree** (`occupancy_octree.dfy`). This is a voxel grid of fixed
  resolution. Each occupied voxel stores the packed colour of the last point inserted into it.
  - The class `OctreePointCloudOccupancyColored` keeps the voxels as a `map` from integer voxel
    keys to `bv32`. Its methods update that map in place.
  - The functions `Insert`/`InsertCloud` say what the methods compute.
  - The lemmas prove four things: the cloud loop skips non-finite points, a voxel keeps the
    colour of the last point that hit it, re-inserting a cloud changes nothing, and the voxel
    centres list every occupied voxel exactly once with that voxel's colour.
- **Object pose estimation** (`object_utils.dfy`, with `vectors.dfy`). It covers two things:
  - The bounding-box pose rule. The first axis is the longer horizontal edge, the second is the
    cross product with the vertical edge, and the height is the mean z of the four base vertices.
  - The category-dependent pre-filter that the point-cloud pose estimator applies before its
    principal-axis computation:
    - `atwork` spheres and flat objects are returned unfiltered;
    - cavities get a z band capped below the top and are flattened to z = 0.015;
    - "M20", "M30" and "F20_20_G" are returned unfiltered;
    - every other object gets the z band [min z + lower offset, max z + upper offset].
  - The cavity flattening loop works in place on an `array`.
- **Laser-scan segmentation** (`laserscan_segmentation.dfy`). The class `LaserScanSegmenter`
  walks the readings once. It closes a segment wherever the gap to the next reading exceeds the
  threshold, and at the second-last reading. It reports the segment when the segment counted
  enough points and its centre of gravity is closer than 5 m.
  - The method `GetSegments` is proved equal to `ScanSegments`. That function cuts the scan into
    spans (`Spans`, over the cut flags) and filters and maps the spans.
  - Lemmas prove how the spans partition the scan and which spans are reported.
  - As in the source, the last segment is irregular:
    - its centre of gravity includes the final reading;
    - its point counter and its stored points do not include the final reading.

  `SpansPartitionScan` proves that the last span ends at the final reading and counts one
  reading fewer than it spans. `SegmentOf` and `Emitted` then take the centre of gravity over
  readings start..end and the stored points over start..start + count.

`point_types.dfy` holds the shared point type. A coordinate is finite, NaN or infinite, and the
colour is a `bv32`.

The pose of a 1-unit cube centred at the origin is placed at the mean z of its base vertices.
That is z = -0.5, not 0: `EstimateBoxPose` states the base-vertex mean, as
`object_utils_ros.cpp` line 48 computes it.

## Model

| member | source | states |
|---|---|---|
| OccupancyOctree.AxisKey | mir_perception/mir_perception_utils/common/include/mir_perception_utils/octree_pointcloud_occupancy_colored.hpp:42 | the voxel index along an axis is the one whose cell [k·res, (k+1)·res) contains the coordinate |
| OccupancyOctree.KeyOf | mir_perception/mir_perception_utils/common/include/mir_perception_utils/octree_pointcloud_occupancy_colored.hpp:42 | the point lies in its voxel's cell on every axis: key·res ≤ coordinate < (key + 1)·res |
| OccupancyOctree.KeyOfCentre | mir_perception/mir_perception_utils/common/include/mir_perception_utils/octree_pointcloud_occupancy_colored.hpp:64-72 | a voxel's centre falls back into that same voxel, so looking a centre up finds its own voxel |
| OccupancyOctree.OctreePointCloudOccupancyColored.constructor | mir_perception/mir_perception_utils/common/include/mir_perception_utils/octree_pointcloud_occupancy_colored.hpp:30-34 | a new octree has the given resolution and no occupied voxel |
| OccupancyOctree.OctreePointCloudOccupancyColored.SetOccupiedVoxelAtPoint | mir_perception/mir_perception_utils/common/include/mir_perception_utils/octree_pointcloud_occupancy_colored.hpp:38-45 | the point's voxel becomes occupied and holds the point's colour; every other voxel keeps its colour; no voxel is removed |
| OccupancyOctree.OctreePointCloudOccupancyColored.SetOccupiedVoxelsAtPointsFromCloud | mir_perception/mir_perception_utils/common/include/mir_perception_utils/octree_pointcloud_occupancy_colored.hpp:47-53 | the map after the loop is `InsertCloud` of the map before: the cloud's points are taken in order and points with a non-finite coordinate are skipped |
| OccupancyOctree.InsertCloudIsInsertEach | mir_perception/mir_perception_utils/common/include/mir_perception_utils/octree_pointcloud_occupancy_colored.hpp:47-53 | inserting a cloud equals inserting its finite points one at a time, in cloud order |
| OccupancyOctree.NonFinitePointIsSkipped | mir_perception/mir_perception_utils/common/include/mir_perception_utils/octree_pointcloud_occupancy_colored.hpp:50-52 | a point with a NaN or infinite coordinate changes nothing, wherever it stands in the cloud |
| OccupancyOctree.InsertCloudLookup | mir_perception/mir_perception_utils/common/include/mir_perception_utils/octree_pointcloud_occupancy_colored.hpp:38-53 | after a cloud is inserted, a voxel is occupied iff it was before or a finite point hit it; a hit voxel holds the colour of the last point that hit it; other voxels keep their colour |
| OccupancyOctree.InsertCloudIdempotent | mir_perception/mir_perception_utils/common/include/mir_perception_utils/octree_pointcloud_occupancy_colored.hpp:47-53 | inserting the same cloud twice leaves the same map as inserting it once |
| OccupancyOctree.SameVoxelOccupiedOnce | mir_perception/mir_perception_utils/common/include/mir_perception_utils/octree_pointcloud_occupancy_colored.hpp:38-45 | two points in one voxel occupy one voxel holding the later colour; inserting a point again changes nothing |
| OccupancyOctree.OctreePointCloudOccupancyColored.GetVoxelColorAtPoint | mir_perception/mir_perception_utils/common/include/mir_perception_utils/octree_pointcloud_occupancy_colored.hpp:55-62 | the colour stored in the point's voxel, or 0 when that voxel is unoccupied |
| OccupancyOctree.OctreePointCloudOccupancyColored.OccupiedKeys | mir_perception/mir_perception_utils/common/include/mir_perception_utils/octree_pointcloud_occupancy_colored.hpp:66 | the leaf traversal: as many keys as occupied voxels, each one occupied, none twice, every occupied voxel present |
| OccupancyOctree.CentresOfDistinctKeys | mir_perception/mir_perception_utils/common/include/mir_perception_utils/octree_pointcloud_occupancy_colored.hpp:66 | the centres of such a key list are `CentresOf` the map: each is the centre of its own occupied voxel, no voxel twice, every voxel present |
| OccupancyOctree.OctreePointCloudOccupancyColored.OccupiedVoxelCenters | mir_perception/mir_perception_utils/common/include/mir_perception_utils/octree_pointcloud_occupancy_colored.hpp:66 | one centre per occupied voxel (`CentresOf`): as many centres as voxels, no voxel twice, every voxel present |
| OccupancyOctree.OctreePointCloudOccupancyColored.ColorCenters | mir_perception/mir_perception_utils/common/include/mir_perception_utils/octree_pointcloud_occupancy_colored.hpp:67-71 | each point in the array gets its own voxel's colour in place; its coordinates are unchanged |
| OccupancyOctree.ColoredCentres | mir_perception/mir_perception_utils/common/include/mir_perception_utils/octree_pointcloud_occupancy_colored.hpp:64-72 | giving each voxel centre its voxel's colour yields one coloured centre per occupied voxel (`ColoredCentresOf`) |
| OccupancyOctree.OctreePointCloudOccupancyColored.GetOccupiedVoxelCentersWithColor | mir_perception/mir_perception_utils/common/include/mir_perception_utils/octree_pointcloud_occupancy_colored.hpp:64-72 | exactly one point per occupied voxel, at the voxel's centre and carrying the voxel's colour (`ColoredCentresOf`) |
| PointTypes.FinitePoints | mir_perception/mir_perception_utils/common/include/mir_perception_utils/octree_pointcloud_occupancy_colored.hpp:50-51 | the points whose three coordinates are finite, and no others |
| ObjectUtils.EstimateBoxPose | mir_perception/mir_perception_utils/ros/src/object_utils_ros.cpp:27-53 | x, y are the box centre's and z the mean of the four base vertices; n3 is the normalised vertical edge; n1 is the normalised longer horizontal edge (0→3 on a tie); both are unit vectors and n2 = n3 × n1 is orthogonal to both; there is no frame exactly when a normalising edge has length zero |
| ObjectUtils.BoxFrameOrthonormal | mir_perception/mir_perception_utils/ros/src/object_utils_ros.cpp:32-38 | for a rectangular box the frame is orthonormal: n1 ⟂ n3 and n2 is a unit vector |
| Vectors.NormOrderIsSqNormOrder | mir_perception/mir_perception_utils/ros/src/object_utils_ros.cpp:33 | comparing two edge norms is comparing their squared lengths, and a norm is zero iff the squared length is |
| Vectors.NormalizedIsUnit | mir_perception/mir_perception_utils/ros/src/object_utils_ros.cpp:32-36 | an edge divided by its non-zero norm is a unit vector |
| Vectors.CrossOrthogonal | mir_perception/mir_perception_utils/ros/src/object_utils_ros.cpp:38 | the cross product is orthogonal to both of its factors |
| ObjectUtils.MinMaxZBounds | mir_perception/mir_perception_utils/ros/src/object_utils_ros.cpp:72 | the least and greatest z among the finite points, both attained; (FLT_MAX, -FLT_MAX) when no point is finite |
| ObjectUtils.PassThroughZ | mir_perception/mir_perception_utils/ros/src/object_utils_ros.cpp:82-84 | keeps exactly the points whose z is finite and inside the band, and no more points than it was given |
| ObjectUtils.EmptyBand | mir_perception/mir_perception_utils/ros/src/object_utils_ros.cpp:82-84 | a band whose lower limit is above its upper limit keeps nothing |
| ObjectUtils.SelectPolicy | mir_perception/mir_perception_utils/ros/src/object_utils_ros.cpp:65-102 | which branch is taken, stated in both directions for each branch: atwork sphere/flat, cavity, cavity "M20_H", and the three named objects |
| ObjectUtils.AtworkRoundObjectsUnfiltered | mir_perception/mir_perception_utils/ros/src/object_utils_ros.cpp:65-66 | atwork spheres and flat objects are returned unchanged |
| ObjectUtils.CavityBandLimits | mir_perception/mir_perception_utils/ros/src/object_utils_ros.cpp:73-82 | cavity band = [min z + lower offset, max z − 0.015], or − 0.02 for "M20_H"; the upper offset has no effect |
| ObjectUtils.FlattenCavity | mir_perception/mir_perception_utils/ros/src/object_utils_ros.cpp:87-92 | in place, every point with a finite z gets z = 0.015; NaN and infinite z stay; x, y and colour are unchanged |
| ObjectUtils.FlattenedBand | mir_perception/mir_perception_utils/ros/src/object_utils_ros.cpp:82-92 | every flattened point is an input point inside the band, moved to z = 0.015 |
| ObjectUtils.CavityResultFlattened | mir_perception/mir_perception_utils/ros/src/object_utils_ros.cpp:75-92 | the cavity result has as many points as the band and each is a band point of the input at z = 0.015 |
| ObjectUtils.NamedObjectsUnfiltered | mir_perception/mir_perception_utils/ros/src/object_utils_ros.cpp:95-102 | outside the cavity and round-atwork cases, "M20", "M30" and "F20_20_G" are returned unchanged |
| ObjectUtils.DefaultBandLimits | mir_perception/mir_perception_utils/ros/src/object_utils_ros.cpp:72-74 | every other object is cut to [min z + lower offset, max z + upper offset] |
| ObjectUtils.DefaultBandKeepsFinitePoints | mir_perception/mir_perception_utils/ros/src/object_utils_ros.cpp:72-98 | with a lower offset ≤ 0 ≤ upper offset, the default band keeps every finite point |
| ObjectUtils.NoFinitePointsFilteredEmpty | mir_perception/mir_perception_utils/ros/src/object_utils_ros.cpp:72-98 | a cloud with no finite point filters to nothing in either band branch |
| ObjectUtils.EstimatePoseFilter | mir_perception/mir_perception_utils/ros/src/object_utils_ros.cpp:55-104 | the cloud returned (and used for the pose) is `FilteredCloud`, the branch-by-branch filter stated by the lemmas above |
| LaserScanSegmentation.ScanSize | mir_perception/mir_object_segmentation/ros/src/laserscan_segmentation.cpp:28-29 | the scan size is the ceiling of (angle_max − angle_min) / angle_increment: the least whole number at or above the quotient |
| LaserScanSegmentation.EuclideanDistanceIsChordLength | mir_perception/mir_object_segmentation/ros/src/laserscan_segmentation.cpp:97-102 | where cos, sin and sqrt obey the Pythagorean identity, the angle-difference formula and the root property, the law-of-cosines distance is non-negative and its square is the squared Cartesian distance between the two readings |
| LaserScanSegmentation.EuclideanDistanceSymmetric | mir_perception/mir_object_segmentation/ros/src/laserscan_segmentation.cpp:97-102 | the law-of-cosines distance between two readings does not depend on their order |
| LaserScanSegmentation.CentroidXWithinBounds | mir_perception/mir_object_segmentation/ros/src/laserscan_segmentation.cpp:104-128 | the centre of gravity lies within the x range of the readings it averages |
| LaserScanSegmentation.CentroidYWithinBounds | mir_perception/mir_object_segmentation/ros/src/laserscan_segmentation.cpp:104-128 | the centre of gravity lies within the y range of the readings it averages |
| LaserScanSegmentation.LaserScanSegmenter.constructor | mir_perception/mir_object_segmentation/ros/src/laserscan_segmentation.cpp:9-14 | the segmenter keeps the given distance threshold and minimum point count |
| LaserScanSegmentation.LaserScanSegmenter.GetCenterOfGravity | mir_perception/mir_object_segmentation/ros/src/laserscan_segmentation.cpp:104-128 | the loop returns the mean of the points for readings start..end inclusive |
| LaserScanSegmentation.CutFlags | mir_perception/mir_object_segmentation/ros/src/laserscan_segmentation.cpp:52-54 | one flag per visited reading (scan size − 1 of them); the second-last reading is always a cut |
| LaserScanSegmentation.NextCut | mir_perception/mir_object_segmentation/ros/src/laserscan_segmentation.cpp:34-58 | the first cut at or after a reading: a cut, and no earlier reading from there is one |
| LaserScanSegmentation.Spans | mir_perception/mir_object_segmentation/ros/src/laserscan_segmentation.cpp:55-58 | the spans start at the given reading and are non-empty; each end and count stays within the scan |
| LaserScanSegmentation.SpansPartitionScan | mir_perception/mir_object_segmentation/ros/src/laserscan_segmentation.cpp:55-86 | spans follow each other without gap or overlap, and each span but the last counts start..end (`Consecutive`); the last span's end is the final reading, which its count leaves out (`EndsOpenAt`) |
| LaserScanSegmentation.SpansEndAtCuts | mir_perception/mir_object_segmentation/ros/src/laserscan_segmentation.cpp:52-58 | each span's last counted reading is a cut and none before it in the span is |
| LaserScanSegmentation.ReportedSegments | mir_perception/mir_object_segmentation/ros/src/laserscan_segmentation.cpp:62-78 | a segment is reported iff some span counted enough points and has its centre of gravity within 5 m; the segment carries that span's centre; there are no more segments than spans |
| LaserScanSegmentation.ReportedSegmentsQualify | mir_perception/mir_object_segmentation/ros/src/laserscan_segmentation.cpp:62-77 | every reported segment is within reach and, when points are stored, has at least the minimum number of them; with storing off it has none |
| LaserScanSegmentation.LaserScanSegmenter.ReportSegment | mir_perception/mir_object_segmentation/ros/src/laserscan_segmentation.cpp:62-79 | at a cut the segment closed there is reported exactly as `Report` says: when it counted enough points and its centre of gravity is within 5 m, carrying that centre and, when storing, the counted points |
| LaserScanSegmentation.LaserScanSegmenter.VisitReading | mir_perception/mir_object_segmentation/ros/src/laserscan_segmentation.cpp:35-87 | one pass of the loop body keeps the counter equal to the readings since the segment start and the stored points equal to those readings, and leaves the rest of the walk unchanged |
| LaserScanSegmentation.WalkIsScanSegments | mir_perception/mir_object_segmentation/ros/src/laserscan_segmentation.cpp:34-88 | the loop, read as a recursion over its state from the first reading, reports exactly the segments of the span decomposition |
| LaserScanSegmentation.LaserScanSegmenter.GetSegments | mir_perception/mir_object_segmentation/ros/src/laserscan_segmentation.cpp:18-95 | the segments returned are `ScanSegments` of the scan, the threshold and the minimum count; `num_segments` is their number; a scan of fewer than two readings gives none |

## Left out

- Floating point: `float` and `double` are modelled as mathematical reals. Rounding is not modelled, and neither are the `float` offsets and the `uint32_t` pack of the colour beyond `bv32`.
- cos, sin and sqrt in the laser segmentation are supplied by the caller as uninterpreted functions (`Trig`). The distance test `sqrt(x² + y²) < 5.0` is stated as `x² + y² < 25`.
- Edge norms in the box pose are supplied by the caller and are only required to be the non-negative square roots of the squared lengths.
- ObjectUtils.EstimateBoxPose: does not build the quaternion from the frame or normalise it (Eigen). A degenerate edge, where the source divides by zero and produces NaN, is modelled as a missing frame.
- ObjectUtils.EstimatePoseFilter: models only the pre-filter and the cloud it returns. Not modelled: the centroid, covariance, eigen-decomposition, bounding-box position, and the reduction of the orientation to yaw only (Eigen and tf, lines 106-153).
- `pcl::PassThrough` is not part of this model. It is assumed to keep, in order, the points whose z is finite and within the limits. The filter is modelled on z only, although PCL's pass-through may also drop points whose x or y is not finite. `pcl::getMinMax3D` is modelled for z only, over points with all three coordinates finite.
- LaserScanSegmentation.ScanSize: requires a non-zero angle_increment whose sign matches angle_max − angle_min, so ascending and descending scans are both covered. The `uint32_t` cast of a negative or huge quotient is not modelled.
- LaserScanSegmentation.LaserScanSegmenter.GetSegments: requires that the scan holds at least scan-size readings. The source reads `ranges[i + 1]` unchecked.
- Message headers and time stamps (`rclcpp::Clock().now()`) are left out of the segment list.
- The octree's tree structure, bounding-box growth and depth are abstracted to a map from integer voxel keys, with key = floor(coordinate / resolution) per axis. The order in which `getOccupiedVoxelCenters` lists centres is left to the octree and not modelled.
- The model fixes the voxel grid's origin at 0. PCL's octree adapts its bounding box to the points it is given, so its grid need not be anchored there.
- OccupancyOctree.OctreePointCloudOccupancyColored.SetOccupiedVoxelAtPoint: requires a point with finite coordinates. The source does not check this; a NaN or infinite coordinate gives a key cast with no defined result. The cloud loop only ever passes finite points.
- OccupancyOctree.OctreePointCloudOccupancyColored.GetVoxelColorAtPoint: requires a point with finite coordinates, for the same reason. The colouring loop only ever passes voxel centres, which are finite.
- `object::transformPose`, `savePcd`, the image and bounding-box wrappers in `object_utils_ros.cpp`, `scene_segmentation_ros.hpp` and `action_states.py` are not part of this model.
