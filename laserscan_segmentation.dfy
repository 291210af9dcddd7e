/** Segmentation of a planar laser scan into runs of adjacent readings whose neighbours lie
    within a distance threshold (mir_object_segmentation LaserScanSegmentation). */
module LaserScanSegmentation {

  /** cos, sin and sqrt from <cmath>; they are not interpreted by this model. */
  datatype Trig = Trig(cos: real -> real, sin: real -> real, sqrt: real -> real)

  /** The fields of sensor_msgs/LaserScan that the segmentation reads. */
  datatype LaserScan = LaserScan(angleMin: real, angleMax: real, angleIncrement: real, ranges: seq<real>)

  datatype Point2 = Point2(x: real, y: real)

  /** One emitted segment: its centre of gravity and, when requested, the points counted for it. */
  datatype Segment = Segment(center: Point2, dataPoints: seq<Point2>)

  /** mir_interfaces/LaserScanSegmentList without its header. */
  datatype SegmentList = SegmentList(segments: seq<Segment>, numSegments: nat)

  /** The maximum distance (exclusive) from the sensor at which a segment is reported. */
  const MaxSegmentDistance: real := 5.0

  function Abs(r: real): real {
    if r < 0.0 then -r else r
  }

  /** (angle_max - angle_min) / angle_increment: how many increments the angle range spans. */
  function AngleSteps(scan: LaserScan): real
    requires scan.angleIncrement != 0.0
  {
    (scan.angleMax - scan.angleMin) / scan.angleIncrement
  }

  /** The increment is non-zero and points from angle_min towards angle_max (either way round). */
  predicate WellFormedAngles(scan: LaserScan) {
    scan.angleIncrement != 0.0 && AngleSteps(scan) >= 0.0
  }

  /** The number of readings the loop visits: ceil((angle_max - angle_min) / angle_increment). */
  function ScanSize(scan: LaserScan): (size: nat)
    requires WellFormedAngles(scan)
    ensures AngleSteps(scan) <= size as real < AngleSteps(scan) + 1.0
  {
    -((-AngleSteps(scan)).Floor)
  }

  /** The source reads ranges[i] for every i below the scan size. */
  predicate ValidScan(scan: LaserScan) {
    WellFormedAngles(scan) && ScanSize(scan) <= |scan.ranges|
  }

  function Angle(scan: LaserScan, i: nat): real {
    scan.angleMin + (i as real) * scan.angleIncrement
  }

  /** Reading i in Cartesian coordinates. */
  function PointAt(scan: LaserScan, trig: Trig, i: nat): Point2
    requires i < |scan.ranges|
  {
    Polar(trig, scan.ranges[i], Angle(scan, i))
  }

  /** The Cartesian point at a range and an angle. */
  function Polar(trig: Trig, distance: real, angle: real): Point2 {
    Point2(distance * trig.cos(angle), distance * trig.sin(angle))
  }

  function SquaredDistance(a: Point2, b: Point2): real {
    (a.x - b.x) * (a.x - b.x) + (a.y - b.y) * (a.y - b.y)
  }

  /** The law of cosines: the squared distance between two readings at ranges distanceA and
      distanceB whose angles differ by an angle with cosine c. */
  function SquaredGap(distanceA: real, distanceB: real, c: real): real {
    distanceA * distanceA + distanceB * distanceB - (2.0 * distanceA * distanceB) * c
  }

  /** getEuclideanDistance: the distance between two polar readings. */
  function EuclideanDistance(trig: Trig, distanceA: real, angleA: real, distanceB: real, angleB: real): real {
    trig.sqrt(SquaredGap(distanceA, distanceB, trig.cos(Abs(angleA - angleB))))
  }

  lemma SquaredGapSymmetric(distanceA: real, distanceB: real, c: real)
    ensures SquaredGap(distanceA, distanceB, c) == SquaredGap(distanceB, distanceA, c)
  {
  }

  /** Where cos and sin obey the Pythagorean identity and the angle-difference formula at the
      two angles, and sqrt returns the non-negative root of the squared gap, the distance is the
      Cartesian distance between the two readings. */
  lemma EuclideanDistanceIsChordLength(trig: Trig, distanceA: real, angleA: real, distanceB: real, angleB: real)
    requires trig.cos(angleA) * trig.cos(angleA) + trig.sin(angleA) * trig.sin(angleA) == 1.0
    requires trig.cos(angleB) * trig.cos(angleB) + trig.sin(angleB) * trig.sin(angleB) == 1.0
    requires trig.cos(Abs(angleA - angleB)) == trig.cos(angleA) * trig.cos(angleB) + trig.sin(angleA) * trig.sin(angleB)
    requires var root := trig.sqrt(SquaredGap(distanceA, distanceB, trig.cos(Abs(angleA - angleB))));
      root >= 0.0 && root * root == SquaredGap(distanceA, distanceB, trig.cos(Abs(angleA - angleB)))
    ensures var d := EuclideanDistance(trig, distanceA, angleA, distanceB, angleB);
      d >= 0.0 && d * d == SquaredDistance(Polar(trig, distanceA, angleA), Polar(trig, distanceB, angleB))
  {
    var cA, sA, cB, sB := trig.cos(angleA), trig.sin(angleA), trig.cos(angleB), trig.sin(angleB);
    ChordIdentity(distanceA, cA, sA, distanceB, cB, sB);
  }

  /** The polynomial identity behind the law of cosines. */
  lemma ChordIdentity(dA: real, cA: real, sA: real, dB: real, cB: real, sB: real)
    requires cA * cA + sA * sA == 1.0 && cB * cB + sB * sB == 1.0
    ensures (dA * cA - dB * cB) * (dA * cA - dB * cB) + (dA * sA - dB * sB) * (dA * sA - dB * sB)
         == SquaredGap(dA, dB, cA * cB + sA * sB)
  {
    assert (dA * cA - dB * cB) * (dA * cA - dB * cB) == dA * dA * (cA * cA) - 2.0 * dA * dB * (cA * cB) + dB * dB * (cB * cB);
    assert (dA * sA - dB * sB) * (dA * sA - dB * sB) == dA * dA * (sA * sA) - 2.0 * dA * dB * (sA * sB) + dB * dB * (sB * sB);
    assert dA * dA * (cA * cA) + dA * dA * (sA * sA) == dA * dA * (cA * cA + sA * sA);
    assert dB * dB * (cB * cB) + dB * dB * (sB * sB) == dB * dB * (cB * cB + sB * sB);
  }

  /** The distance does not depend on which reading comes first. */
  lemma EuclideanDistanceSymmetric(trig: Trig, distanceA: real, angleA: real, distanceB: real, angleB: real)
    ensures EuclideanDistance(trig, distanceA, angleA, distanceB, angleB)
         == EuclideanDistance(trig, distanceB, angleB, distanceA, angleA)
  {
    assert Abs(angleB - angleA) == Abs(angleA - angleB);
    SquaredGapSymmetric(distanceA, distanceB, trig.cos(Abs(angleA - angleB)));
  }

  /** The gap between reading i and reading i + 1. */
  function Gap(scan: LaserScan, trig: Trig, i: nat): real
    requires i + 1 < |scan.ranges|
  {
    EuclideanDistance(trig, scan.ranges[i], Angle(scan, i), scan.ranges[i + 1], Angle(scan, i + 1))
  }

  /** A segment ends at index i when the gap to the next reading exceeds the threshold, or at
      the last pair of the scan. */
  predicate IsCut(scan: LaserScan, trig: Trig, threshold: real, i: nat)
    requires ValidScan(scan) && i + 2 <= ScanSize(scan)
  {
    Gap(scan, trig, i) > threshold || i == ScanSize(scan) - 2
  }

  // ---------------------------------------------------------------------------
  // Centre of gravity
  // ---------------------------------------------------------------------------

  function SumX(scan: LaserScan, trig: Trig, lo: nat, hi: nat): real
    requires lo <= hi <= |scan.ranges|
    decreases hi - lo
  {
    if hi == lo then 0.0 else SumX(scan, trig, lo, hi - 1) + PointAt(scan, trig, hi - 1).x
  }

  function SumY(scan: LaserScan, trig: Trig, lo: nat, hi: nat): real
    requires lo <= hi <= |scan.ranges|
    decreases hi - lo
  {
    if hi == lo then 0.0 else SumY(scan, trig, lo, hi - 1) + PointAt(scan, trig, hi - 1).y
  }

  /** The arithmetic mean of readings start..end inclusive. */
  function Centroid(scan: LaserScan, trig: Trig, start: nat, end: nat): Point2
    requires start <= end < |scan.ranges|
  {
    var n := (end - start + 1) as real;
    Point2(SumX(scan, trig, start, end + 1) / n, SumY(scan, trig, start, end + 1) / n)
  }

  /** The bounds of the readings' x bound their sum. */
  lemma {:induction false} SumXBounds(scan: LaserScan, trig: Trig, lo: nat, hi: nat, low: real, high: real)
    requires lo <= hi <= |scan.ranges|
    requires forall k :: lo <= k < hi ==> low <= PointAt(scan, trig, k).x <= high
    ensures (hi - lo) as real * low <= SumX(scan, trig, lo, hi) <= (hi - lo) as real * high
    decreases hi - lo
  {
    if hi > lo {
      SumXBounds(scan, trig, lo, hi - 1, low, high);
      assert (hi - lo) as real * low == (hi - 1 - lo) as real * low + low;
      assert (hi - lo) as real * high == (hi - 1 - lo) as real * high + high;
    }
  }

  /** The centre of gravity lies within the x range of the readings it averages. */
  lemma CentroidXWithinBounds(scan: LaserScan, trig: Trig, start: nat, end: nat, low: real, high: real)
    requires start <= end < |scan.ranges|
    requires forall k :: start <= k <= end ==> low <= PointAt(scan, trig, k).x <= high
    ensures low <= Centroid(scan, trig, start, end).x <= high
  {
    SumXBounds(scan, trig, start, end + 1, low, high);
    var n := (end - start + 1) as real;
    var s := SumX(scan, trig, start, end + 1);
    assert n * low <= s <= n * high;
    DivideBounds(s, n, low, high);
  }

  /** The bounds of the readings' y bound their sum. */
  lemma {:induction false} SumYBounds(scan: LaserScan, trig: Trig, lo: nat, hi: nat, low: real, high: real)
    requires lo <= hi <= |scan.ranges|
    requires forall k :: lo <= k < hi ==> low <= PointAt(scan, trig, k).y <= high
    ensures (hi - lo) as real * low <= SumY(scan, trig, lo, hi) <= (hi - lo) as real * high
    decreases hi - lo
  {
    if hi > lo {
      SumYBounds(scan, trig, lo, hi - 1, low, high);
      assert (hi - lo) as real * low == (hi - 1 - lo) as real * low + low;
      assert (hi - lo) as real * high == (hi - 1 - lo) as real * high + high;
    }
  }

  /** The centre of gravity lies within the y range of the readings it averages. */
  lemma CentroidYWithinBounds(scan: LaserScan, trig: Trig, start: nat, end: nat, low: real, high: real)
    requires start <= end < |scan.ranges|
    requires forall k :: start <= k <= end ==> low <= PointAt(scan, trig, k).y <= high
    ensures low <= Centroid(scan, trig, start, end).y <= high
  {
    SumYBounds(scan, trig, start, end + 1, low, high);
    var n := (end - start + 1) as real;
    var s := SumY(scan, trig, start, end + 1);
    assert n * low <= s <= n * high;
    DivideBounds(s, n, low, high);
  }

  lemma DivideBounds(s: real, n: real, low: real, high: real)
    requires n > 0.0 && n * low <= s <= n * high
    ensures low <= s / n <= high
  {
    assert (s / n) * n == s;
    CancelFactor(low, s / n, n);
    CancelFactor(s / n, high, n);
  }

  lemma CancelFactor(a: real, b: real, n: real)
    requires n > 0.0 && a * n <= b * n
    ensures a <= b
  {
  }

  /** Readings lo..hi-1 in Cartesian coordinates. */
  function Points(scan: LaserScan, trig: Trig, lo: nat, hi: nat): (r: seq<Point2>)
    requires lo <= hi <= |scan.ranges|
    ensures |r| == hi - lo
    ensures forall k :: 0 <= k < |r| ==> r[k] == PointAt(scan, trig, lo + k)
  {
    seq(hi - lo, k requires 0 <= k < hi - lo => PointAt(scan, trig, lo + k))
  }

  lemma PointsExtend(scan: LaserScan, trig: Trig, lo: nat, hi: nat)
    requires lo <= hi < |scan.ranges|
    ensures Points(scan, trig, lo, hi + 1) == Points(scan, trig, lo, hi) + [PointAt(scan, trig, hi)]
  {
  }

  // ---------------------------------------------------------------------------
  // The segments of a scan
  // ---------------------------------------------------------------------------

  /** Whether a segment ends at each index 0..n-2 of a scan of n readings. */
  function CutFlags(scan: LaserScan, trig: Trig, threshold: real): (cuts: seq<bool>)
    requires ValidScan(scan) && ScanSize(scan) >= 2
    ensures |cuts| == ScanSize(scan) - 1 && cuts[|cuts| - 1]
  {
    seq(ScanSize(scan) - 1, i requires 0 <= i < ScanSize(scan) - 1 => IsCut(scan, trig, threshold, i))
  }

  /** The flags the loop meets: one per index below the last, the last one set. */
  predicate ValidCuts(cuts: seq<bool>) {
    |cuts| > 0 && cuts[|cuts| - 1]
  }

  /** The first cut at or after index from. */
  function NextCut(cuts: seq<bool>, from: nat): (c: nat)
    requires ValidCuts(cuts) && from < |cuts|
    ensures from <= c < |cuts| && cuts[c]
    ensures forall k :: from <= k < c ==> !cuts[k]
    decreases |cuts| - from
  {
    if cuts[from] then from else NextCut(cuts, from + 1)
  }

  /** The values of the start index, end index and point counter when a cut is reached. */
  datatype Span = Span(start: nat, end: nat, count: nat)

  /** The spans the readings from..|cuts| are cut into. The last span runs to the last
      reading, |cuts|, but its counter leaves that reading out. */
  function Spans(cuts: seq<bool>, from: nat): (spans: seq<Span>)
    requires ValidCuts(cuts) && from < |cuts|
    ensures |spans| > 0 && spans[0].start == from
    ensures forall k :: 0 <= k < |spans| ==>
      && spans[k].start <= spans[k].end <= |cuts|
      && 0 < spans[k].count && spans[k].start + spans[k].count <= |cuts|
    decreases |cuts| - from
  {
    var c := NextCut(cuts, from);
    if c == |cuts| - 1 then [Span(from, c + 1, c - from + 1)]
    else [Span(from, c, c - from + 1)] + Spans(cuts, c + 1)
  }

  /** The distance check on a centre of gravity, sqrt(x^2 + y^2) < 5, stated on squares. */
  predicate WithinReach(center: Point2) {
    center.x * center.x + center.y * center.y < MaxSegmentDistance * MaxSegmentDistance
  }

  predicate Emitted(scan: LaserScan, trig: Trig, minPoints: nat, span: Span)
    requires span.start <= span.end < |scan.ranges|
  {
    span.count >= minPoints && WithinReach(Centroid(scan, trig, span.start, span.end))
  }

  /** The segment reported for a span: the centre of gravity of its readings start..end and,
      when requested, the points its counter counted. */
  function SegmentOf(scan: LaserScan, trig: Trig, storeDataPoints: bool, span: Span): Segment
    requires span.start <= span.end < |scan.ranges| && span.start + span.count <= |scan.ranges|
  {
    Segment(Centroid(scan, trig, span.start, span.end),
            if storeDataPoints then Points(scan, trig, span.start, span.start + span.count) else [])
  }

  predicate SpansFit(scan: LaserScan, spans: seq<Span>) {
    forall k :: 0 <= k < |spans| ==>
      spans[k].start <= spans[k].end < |scan.ranges| && spans[k].start + spans[k].count <= |scan.ranges|
  }

  /** The segment reported for one span, if any. */
  function Report(scan: LaserScan, trig: Trig, minPoints: nat, storeDataPoints: bool, span: Span): seq<Segment>
    requires span.start <= span.end < |scan.ranges| && span.start + span.count <= |scan.ranges|
  {
    if Emitted(scan, trig, minPoints, span) then [SegmentOf(scan, trig, storeDataPoints, span)] else []
  }

  /** The segments reported for a list of spans, in order. */
  function SegmentsOf(scan: LaserScan, trig: Trig, minPoints: nat, storeDataPoints: bool, spans: seq<Span>): seq<Segment>
    requires SpansFit(scan, spans)
  {
    if spans == [] then []
    else Report(scan, trig, minPoints, storeDataPoints, spans[0]) + SegmentsOf(scan, trig, minPoints, storeDataPoints, spans[1..])
  }

  /** What getSegments reports for a scan. */
  function ScanSegments(scan: LaserScan, trig: Trig, threshold: real, minPoints: nat, storeDataPoints: bool): seq<Segment>
    requires ValidScan(scan)
  {
    if ScanSize(scan) < 2 then []
    else SegmentsOf(scan, trig, minPoints, storeDataPoints, Spans(CutFlags(scan, trig, threshold), 0))
  }

  // ---------------------------------------------------------------------------
  // Properties of the segmentation
  // ---------------------------------------------------------------------------

  /** A cut with no cut before it since from is the next cut. */
  lemma {:induction false} NextCutIsFirstCut(cuts: seq<bool>, from: nat, c: nat)
    requires ValidCuts(cuts) && from <= c < |cuts| && cuts[c]
    requires forall k :: from <= k < c ==> !cuts[k]
    ensures NextCut(cuts, from) == c
    decreases c - from
  {
    if from < c {
      NextCutIsFirstCut(cuts, from + 1, c);
    }
  }

  /** The last reading a span's counter counts. */
  function LastCounted(span: Span): nat
    requires span.count > 0
  {
    span.start + span.count - 1
  }

  /** Each span starts right after the previous one ends, and the counter of every span but the
      last counts its readings start..end. */
  predicate Consecutive(spans: seq<Span>) {
    forall k :: 0 <= k < |spans| - 1 ==>
      spans[k + 1].start == spans[k].end + 1 && spans[k].count == spans[k].end - spans[k].start + 1
  }

  /** The last span ends at reading n and its counter leaves that reading out. */
  predicate EndsOpenAt(spans: seq<Span>, n: nat) {
    |spans| > 0 && spans[|spans| - 1].end == n
    && spans[|spans| - 1].count == spans[|spans| - 1].end - spans[|spans| - 1].start
  }

  lemma ConsecutiveCons(first: Span, rest: seq<Span>)
    requires Consecutive(rest)
    requires rest != [] ==> rest[0].start == first.end + 1 && first.count == first.end - first.start + 1
    ensures Consecutive([first] + rest)
  {
    var spans := [first] + rest;
    forall k | 0 <= k < |spans| - 1
      ensures spans[k + 1].start == spans[k].end + 1 && spans[k].count == spans[k].end - spans[k].start + 1
    {
      if k > 0 {
        assert spans[k] == rest[k - 1] && spans[k + 1] == rest[k];
      }
    }
  }

  /** The spans cover the readings from..|cuts| one after the other: each span starts right
      after the previous one ends, the counter of every span but the last counts its readings
      start..end, and the last span runs to reading |cuts|, which its counter leaves out. */
  lemma {:induction false} SpansPartitionScan(cuts: seq<bool>, from: nat)
    requires ValidCuts(cuts) && from < |cuts|
    ensures Consecutive(Spans(cuts, from))
    ensures EndsOpenAt(Spans(cuts, from), |cuts|)
    decreases |cuts| - from
  {
    var c := NextCut(cuts, from);
    if c != |cuts| - 1 {
      SpansPartitionScan(cuts, c + 1);
      var rest := Spans(cuts, c + 1);
      assert Spans(cuts, from) == [Span(from, c, c - from + 1)] + rest;
      ConsecutiveCons(Span(from, c, c - from + 1), rest);
    }
  }

  /** Each span's last counted reading is a cut and no reading it counts before that one is. */
  lemma {:induction false} SpansEndAtCuts(cuts: seq<bool>, from: nat)
    requires ValidCuts(cuts) && from < |cuts|
    ensures forall k :: 0 <= k < |Spans(cuts, from)| ==> cuts[LastCounted(Spans(cuts, from)[k])]
    ensures forall k, j ::
              0 <= k < |Spans(cuts, from)| && Spans(cuts, from)[k].start <= j < LastCounted(Spans(cuts, from)[k])
              ==> !cuts[j]
    decreases |cuts| - from
  {
    var c := NextCut(cuts, from);
    if c != |cuts| - 1 {
      SpansEndAtCuts(cuts, c + 1);
      var rest := Spans(cuts, c + 1);
      var spans := Spans(cuts, from);
      assert spans == [Span(from, c, c - from + 1)] + rest;
      forall k | 0 <= k < |spans|
        ensures cuts[LastCounted(spans[k])]
        ensures forall j :: spans[k].start <= j < LastCounted(spans[k]) ==> !cuts[j]
      {
        if k > 0 {
          assert spans[k] == rest[k - 1];
          assert cuts[LastCounted(rest[k - 1])];
        } else {
          assert spans[0] == Span(from, c, c - from + 1);
          assert LastCounted(spans[0]) == c;
        }
      }
    }
  }

  /** A segment is reported exactly for the spans with enough points and a centre of gravity
      within reach, and it carries that span's centre of gravity. */
  lemma {:induction false} ReportedSegments(scan: LaserScan, trig: Trig, minPoints: nat, storeDataPoints: bool, spans: seq<Span>)
    requires SpansFit(scan, spans)
    ensures |SegmentsOf(scan, trig, minPoints, storeDataPoints, spans)| <= |spans|
    ensures forall seg :: seg in SegmentsOf(scan, trig, minPoints, storeDataPoints, spans) <==>
      exists span :: span in spans && Emitted(scan, trig, minPoints, span)
                     && seg == SegmentOf(scan, trig, storeDataPoints, span)
  {
    if spans != [] {
      ReportedSegments(scan, trig, minPoints, storeDataPoints, spans[1..]);
      assert forall span :: span in spans <==> span == spans[0] || span in spans[1..];
    }
  }

  /** Every reported segment lies within reach of the sensor, counts at least the minimum number
      of points and, when they are stored, carries exactly the points it counted. */
  lemma ReportedSegmentsQualify(scan: LaserScan, trig: Trig, threshold: real, minPoints: nat, storeDataPoints: bool)
    requires ValidScan(scan)
    ensures forall seg :: seg in ScanSegments(scan, trig, threshold, minPoints, storeDataPoints) ==>
      && WithinReach(seg.center)
      && (storeDataPoints ==> |seg.dataPoints| >= minPoints)
      && (!storeDataPoints ==> seg.dataPoints == [])
  {
    if ScanSize(scan) >= 2 {
      ReportedSegments(scan, trig, minPoints, storeDataPoints, Spans(CutFlags(scan, trig, threshold), 0));
    }
  }

  /** The span that closes at cut i, the first cut since start. */
  lemma CloseSpan(cuts: seq<bool>, start: nat, i: nat)
    requires ValidCuts(cuts) && start <= i < |cuts| && cuts[i]
    requires forall k :: start <= k < i ==> !cuts[k]
    ensures i < |cuts| - 1 ==> i + 1 < |cuts|
    ensures Spans(cuts, start)
         == [Span(start, if i < |cuts| - 1 then i else i + 1, i - start + 1)]
            + (if i < |cuts| - 1 then Spans(cuts, i + 1) else [])
  {
    NextCutIsFirstCut(cuts, start, i);
  }

  /** The segments of a list of spans are those of its first span followed by those of the rest. */
  lemma ReportFirstSpan(scan: LaserScan, trig: Trig, minPoints: nat, storeDataPoints: bool, first: Span, rest: seq<Span>)
    requires SpansFit(scan, [first] + rest)
    ensures first.start <= first.end < |scan.ranges| && first.start + first.count <= |scan.ranges|
    ensures SpansFit(scan, rest)
    ensures SegmentsOf(scan, trig, minPoints, storeDataPoints, [first] + rest)
         == Report(scan, trig, minPoints, storeDataPoints, first) + SegmentsOf(scan, trig, minPoints, storeDataPoints, rest)
  {
    assert ([first] + rest)[1..] == rest;
    assert ([first] + rest)[0] == first;
    assert forall k :: 0 <= k < |rest| ==> rest[k] == ([first] + rest)[k + 1];
  }

  /** The loop of getSegments read as a recursion over its index i, the start of the open
      segment and the segments reported so far; it yields the segments reported at the end. */
  function Walk(scan: LaserScan, trig: Trig, threshold: real, minPoints: nat, storeDataPoints: bool,
                i: nat, start: nat, segments: seq<Segment>): seq<Segment>
    requires ValidScan(scan) && start <= i < ScanSize(scan)
    decreases ScanSize(scan) - i
  {
    var n := ScanSize(scan);
    if i == n - 1 then segments
    else if IsCut(scan, trig, threshold, i) then
      var span := Span(start, if i < n - 2 then i else i + 1, i - start + 1);
      Walk(scan, trig, threshold, minPoints, storeDataPoints, i + 1, if i < n - 2 then i + 1 else start,
           segments + Report(scan, trig, minPoints, storeDataPoints, span))
    else
      Walk(scan, trig, threshold, minPoints, storeDataPoints, i + 1, start, segments)
  }

  /** The segment a span reports, spelled out from its first reading, its end and its count. */
  lemma ReportOfSpan(scan: LaserScan, trig: Trig, minPoints: nat, storeDataPoints: bool, span: Span)
    requires span.start <= span.end < |scan.ranges| && span.start + span.count <= |scan.ranges|
    ensures var center := Centroid(scan, trig, span.start, span.end);
      Report(scan, trig, minPoints, storeDataPoints, span)
      == if span.count >= minPoints && WithinReach(center)
         then [Segment(center, if storeDataPoints then Points(scan, trig, span.start, span.start + span.count) else [])]
         else []
  {
  }

  lemma AppendAssociative<T>(a: seq<T>, b: seq<T>, c: seq<T>)
    ensures a + b + c == a + (b + c)
  {
  }

  /** One step of the loop at a cut. */
  lemma WalkAtCut(scan: LaserScan, trig: Trig, threshold: real, minPoints: nat, storeDataPoints: bool,
                  i: nat, start: nat, segments: seq<Segment>)
    requires ValidScan(scan) && start <= i < ScanSize(scan) - 1 && IsCut(scan, trig, threshold, i)
    ensures var n := ScanSize(scan);
      var span := Span(start, if i < n - 2 then i else i + 1, i - start + 1);
      Walk(scan, trig, threshold, minPoints, storeDataPoints, i, start, segments)
      == Walk(scan, trig, threshold, minPoints, storeDataPoints, i + 1, if i < n - 2 then i + 1 else start,
              segments + Report(scan, trig, minPoints, storeDataPoints, span))
  {
  }

  /** One step of the loop at a reading that is not a cut. */
  lemma WalkPastReading(scan: LaserScan, trig: Trig, threshold: real, minPoints: nat, storeDataPoints: bool,
                        i: nat, start: nat, segments: seq<Segment>)
    requires ValidScan(scan) && start <= i < ScanSize(scan) - 1 && !IsCut(scan, trig, threshold, i)
    ensures Walk(scan, trig, threshold, minPoints, storeDataPoints, i, start, segments)
         == Walk(scan, trig, threshold, minPoints, storeDataPoints, i + 1, start, segments)
  {
  }

  /** From any index i of an open segment that started at start, the loop reports the
      segments of the spans from start on. */
  lemma {:induction false} WalkReportsSpans(scan: LaserScan, trig: Trig, threshold: real, minPoints: nat,
                                            storeDataPoints: bool, i: nat, start: nat, segments: seq<Segment>)
    requires ValidScan(scan) && ScanSize(scan) >= 2 && start <= i < ScanSize(scan) - 1
    requires forall k :: start <= k < i ==> !IsCut(scan, trig, threshold, k)
    ensures SpansFit(scan, Spans(CutFlags(scan, trig, threshold), start))
    ensures Walk(scan, trig, threshold, minPoints, storeDataPoints, i, start, segments)
         == segments + SegmentsOf(scan, trig, minPoints, storeDataPoints, Spans(CutFlags(scan, trig, threshold), start))
    decreases ScanSize(scan) - i
  {
    var n := ScanSize(scan);
    var cuts := CutFlags(scan, trig, threshold);
    if IsCut(scan, trig, threshold, i) {
      CloseSpan(cuts, start, i);
      var span := Span(start, if i < n - 2 then i else i + 1, i - start + 1);
      var rest := if i < n - 2 then Spans(cuts, i + 1) else [];
      assert Spans(cuts, start) == [span] + rest;
      ReportFirstSpan(scan, trig, minPoints, storeDataPoints, span, rest);
      WalkAtCut(scan, trig, threshold, minPoints, storeDataPoints, i, start, segments);
      var next := segments + Report(scan, trig, minPoints, storeDataPoints, span);
      var later := SegmentsOf(scan, trig, minPoints, storeDataPoints, rest);
      AppendAssociative(segments, Report(scan, trig, minPoints, storeDataPoints, span), later);
      if i < n - 2 {
        WalkReportsSpans(scan, trig, threshold, minPoints, storeDataPoints, i + 1, i + 1, next);
      } else {
        assert later == [];
        assert next + [] == next;
      }
    } else {
      assert i < n - 2;
      assert Walk(scan, trig, threshold, minPoints, storeDataPoints, i, start, segments)
          == Walk(scan, trig, threshold, minPoints, storeDataPoints, i + 1, start, segments);
      WalkReportsSpans(scan, trig, threshold, minPoints, storeDataPoints, i + 1, start, segments);
    }
  }

  /** The loop, run from its initial state, reports exactly the segments of the scan. */
  lemma WalkIsScanSegments(scan: LaserScan, trig: Trig, threshold: real, minPoints: nat, storeDataPoints: bool)
    requires ValidScan(scan) && ScanSize(scan) >= 1
    ensures Walk(scan, trig, threshold, minPoints, storeDataPoints, 0, 0, [])
         == ScanSegments(scan, trig, threshold, minPoints, storeDataPoints)
  {
    if ScanSize(scan) >= 2 {
      WalkReportsSpans(scan, trig, threshold, minPoints, storeDataPoints, 0, 0, []);
    }
  }

  // ---------------------------------------------------------------------------
  // The segmenter
  // ---------------------------------------------------------------------------

  class LaserScanSegmenter {
    /** The largest gap between adjacent readings of one segment. */
    const thresholdDistance: real
    /** The least number of counted points a reported segment has. */
    const minimumPointsPerSegment: nat

    constructor (thresholdDistance: real, minimumPointsPerSegment: nat)
      ensures this.thresholdDistance == thresholdDistance
      ensures this.minimumPointsPerSegment == minimumPointsPerSegment
    {
      this.thresholdDistance := thresholdDistance;
      this.minimumPointsPerSegment := minimumPointsPerSegment;
    }

    /** getCenterOfGravity: the mean of readings start..end inclusive. */
    method GetCenterOfGravity(start: nat, end: nat, scan: LaserScan, trig: Trig) returns (center: Point2)
      requires start <= end < |scan.ranges|
      ensures center == Centroid(scan, trig, start, end)
    {
      var sumX, sumY := 0.0, 0.0;
      var i, j := start, 0;
      while i <= end
        invariant start <= i <= end + 1
        invariant j == i - start
        invariant sumX == SumX(scan, trig, start, i)
        invariant sumY == SumY(scan, trig, start, i)
        decreases end + 1 - i
      {
        var angle := scan.angleMin + (i as real) * scan.angleIncrement;
        assert angle == Angle(scan, i);
        var x, y := scan.ranges[i] * trig.cos(angle), scan.ranges[i] * trig.sin(angle);
        assert Point2(x, y) == PointAt(scan, trig, i);
        sumX := sumX + x;
        sumY := sumY + y;
        i, j := i + 1, j + 1;
      }
      center := Point2(sumX / (j as real), sumY / (j as real));
    }

    /** The body of getSegments at a cut: the segment closed there, if it counted enough
        points and its centre of gravity is within reach. */
    method ReportSegment(start: nat, end: nat, count: nat, dataPoints: seq<Point2>,
                         scan: LaserScan, trig: Trig, storeDataPoints: bool)
      returns (reported: seq<Segment>)
      requires start <= end < |scan.ranges| && start + count <= |scan.ranges|
      requires dataPoints == if storeDataPoints then Points(scan, trig, start, start + count) else []
      ensures reported == Report(scan, trig, minimumPointsPerSegment, storeDataPoints, Span(start, end, count))
    {
      ReportOfSpan(scan, trig, minimumPointsPerSegment, storeDataPoints, Span(start, end, count));
      reported := [];
      if count >= minimumPointsPerSegment {
        var center := GetCenterOfGravity(start, end, scan, trig);
        if WithinReach(center) {
          var segment := Segment(center, []);
          if storeDataPoints {
            segment := segment.(dataPoints := dataPoints);
          }
          reported := [segment];
        }
      }
    }

    /** One pass of the loop body of getSegments, at reading i: count the reading, store its
        point, and at a cut report the segment that closes there and start the next one. The
        state after the pass continues the same walk as the state before it. */
    method VisitReading(i: nat, segmentStart: nat, count: nat, dataPoints: seq<Point2>, segments: seq<Segment>,
                        scan: LaserScan, trig: Trig, storeDataPoints: bool)
      returns (nextStart: nat, nextCount: nat, nextDataPoints: seq<Point2>, nextSegments: seq<Segment>)
      requires ValidScan(scan) && segmentStart <= i < ScanSize(scan) - 1
      requires count == i - segmentStart
      requires dataPoints == if storeDataPoints then Points(scan, trig, segmentStart, i) else []
      ensures nextStart <= i + 1 && nextCount == i + 1 - nextStart
      ensures nextDataPoints == if storeDataPoints then Points(scan, trig, nextStart, i + 1) else []
      ensures Walk(scan, trig, thresholdDistance, minimumPointsPerSegment, storeDataPoints, i + 1, nextStart, nextSegments)
           == Walk(scan, trig, thresholdDistance, minimumPointsPerSegment, storeDataPoints, i, segmentStart, segments)
    {
      var n := ScanSize(scan);
      nextStart, nextCount, nextDataPoints, nextSegments := segmentStart, count + 1, dataPoints, segments;
      var angleCur, distanceCur := Angle(scan, i), scan.ranges[i];
      var angleNext, distanceNext := Angle(scan, i + 1), scan.ranges[i + 1];
      if storeDataPoints {
        PointsExtend(scan, trig, segmentStart, i);
        nextDataPoints := nextDataPoints + [PointAt(scan, trig, i)];
      }
      if EuclideanDistance(trig, distanceCur, angleCur, distanceNext, angleNext) > thresholdDistance || i == n - 2 {
        WalkAtCut(scan, trig, thresholdDistance, minimumPointsPerSegment, storeDataPoints, i, segmentStart, segments);
        var segmentEnd := if i < n - 2 then i else i + 1;
        var reported := ReportSegment(segmentStart, segmentEnd, nextCount, nextDataPoints, scan, trig, storeDataPoints);
        nextSegments := nextSegments + reported;
        if i < n - 2 {
          nextStart := i + 1;
          nextCount := 0;
          if storeDataPoints {
            nextDataPoints := [];
          }
        }
      } else {
        WalkPastReading(scan, trig, thresholdDistance, minimumPointsPerSegment, storeDataPoints, i, segmentStart, segments);
      }
    }

    /** getSegments: walks the readings once, closing a segment at every cut and reporting it
        when it has enough points and its centre of gravity is within reach. */
    method GetSegments(scan: LaserScan, trig: Trig, storeDataPoints: bool) returns (result: SegmentList)
      requires ValidScan(scan)
      ensures result.segments == ScanSegments(scan, trig, thresholdDistance, minimumPointsPerSegment, storeDataPoints)
      ensures result.numSegments == |result.segments|
      ensures ScanSize(scan) < 2 ==> result.segments == []
    {
      var n := ScanSize(scan);
      if n == 0 {
        return SegmentList([], 0);
      }
      var segments: seq<Segment> := [];
      var dataPoints: seq<Point2> := [];
      var count: nat := 0;
      var segmentStart: nat := 0;
      var i: nat := 0;
      while i < n - 1
        invariant segmentStart <= i <= n - 1
        invariant count == i - segmentStart
        invariant dataPoints == if storeDataPoints then Points(scan, trig, segmentStart, i) else []
        invariant Walk(scan, trig, thresholdDistance, minimumPointsPerSegment, storeDataPoints, i, segmentStart, segments)
               == Walk(scan, trig, thresholdDistance, minimumPointsPerSegment, storeDataPoints, 0, 0, [])
      {
        segmentStart, count, dataPoints, segments :=
          VisitReading(i, segmentStart, count, dataPoints, segments, scan, trig, storeDataPoints);
        i := i + 1;
      }
      WalkIsScanSegments(scan, trig, thresholdDistance, minimumPointsPerSegment, storeDataPoints);
      result := SegmentList(segments, |segments|);
    }
  }
}
