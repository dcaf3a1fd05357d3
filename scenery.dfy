/** The course of the 04 versions as `expand_segdata` leaves it and as the frame loop
    reads and rewrites it. A segment carries, besides its geometry, the billboard that
    `set_billboard` placed on it, the screen position the last frame gave it (`x`, `y`),
    and the draw flags of the cars on it. Pitch is negated on expansion. The random
    draws are a stream `rand` read at a cursor; `set_billboard` for segment `k` reads it
    from the cursor left by the segments before `k`. */
module Scenery {
  import opened Numeric
  import Course
  import Billboard
  import CourseGen
  import Projection

  /** `SEGDATA` / the `segdata` dictionaries. */
  datatype Segment = Segment(z: real, x: real, y: real, curve: real, pitch: real, spr: Billboard.Placement, cars: bv8)

  /** `DT` / the `dt` dictionaries: a window point, the segment it stands for, and that
      segment's billboard. */
  datatype Dt = Dt(x: real, y: real, z: real, attr: int, idx: nat, spr: Billboard.Placement)

  /** `seg_max` of a generated course. */
  function SegTotal(course: seq<CourseGen.SegSrc>): nat
  {
    Course.SegCount(CourseGen.Shapes(course))
  }

  /** The run and sub-index of segment `k`. */
  function Sub(course: seq<CourseGen.SegSrc>, k: nat): (ij: (nat, nat))
    requires k < SegTotal(course)
    ensures ij.0 < |course| && ij.1 < course[ij.0].cnt
  {
    Course.Locate(CourseGen.Shapes(course), k)
  }

  /** How many random numbers `set_billboard` consumes for all segments of the first `i` runs. */
  function CourseDraws(course: seq<CourseGen.SegSrc>, i: nat): nat
    requires i <= |course|
  {
    if i == 0 then 0 else CourseDraws(course, i - 1) + Billboard.RunDraws(course[i - 1].bb, course[i - 1].cnt)
  }

  /** Segment `k` as `expand_segdata` writes it from the draws at `pos` on: blended
      geometry with negated pitch, the billboard of its run's zone at its sub-index,
      `x = y = 0` and no cars. */
  function SegmentAt(rand: nat -> nat, pos: nat, course: seq<CourseGen.SegSrc>, segLength: real, k: nat): Segment
    requires k < SegTotal(course)
  {
    var s := Course.SegAt(CourseGen.Shapes(course), k, segLength, true);
    var ij := Sub(course, k);
    var cur := pos + CourseDraws(course, ij.0) + Billboard.RunDraws(course[ij.0].bb, ij.1);
    var spr := Billboard.SetBillboard(rand, cur, course[ij.0].bb, ij.1).0;
    Segment(s.z, 0.0, 0.0, s.curve, s.pitch, spr, 0)
  }

  /** The whole expanded course. */
  function Expanded(rand: nat -> nat, pos: nat, course: seq<CourseGen.SegSrc>, segLength: real): (r: seq<Segment>)
    ensures |r| == SegTotal(course)
  {
    seq(SegTotal(course), k requires 0 <= k < SegTotal(course) => SegmentAt(rand, pos, course, segLength, k))
  }

  /** The geometry the window accumulators read. */
  function Geometry(road: seq<Segment>): (g: seq<Course.Seg>)
    ensures |g| == |road|
    ensures forall i :: 0 <= i < |road| ==> g[i] == Course.Seg(road[i].z, road[i].curve, road[i].pitch)
  {
    seq(|road|, i requires 0 <= i < |road| => Course.Seg(road[i].z, road[i].curve, road[i].pitch))
  }

  /** What a frame never rewrites: everything but `x`, `y` and the car flags. */
  function Fixed(s: Segment): Segment
  {
    s.(x := 0.0, y := 0.0, cars := 0)
  }

  /** Segment `j` of run `i` is global segment `k = start(i) + j`. */
  lemma SubStart(course: seq<CourseGen.SegSrc>, i: nat, j: nat, k: nat)
    requires i < |course| && j < course[i].cnt && k == Course.Start(CourseGen.Shapes(course), i) + j
    ensures k < SegTotal(course) && Sub(course, k) == (i, j)
  {
    Course.LocateStart(CourseGen.Shapes(course), i, j);
  }

  /** The expansion loop's values for segment `k = start(i) + j` make up `SegmentAt`:
      curve and negated pitch blended from run `i` toward run `(i + 1) % len` at
      `ratio = j / cnt`, and the billboard `set_billboard` returns from cursor `cur`, the
      draws of the runs before `i` and of the first `j` segments of run `i` being spent. */
  lemma SegmentAtIs(rand: nat -> nat, pos: nat, course: seq<CourseGen.SegSrc>, segLength: real,
                    i: nat, j: nat, k: nat, z: real, c: real, p: real, cur: nat, spr: Billboard.Placement)
    requires i < |course| && j < course[i].cnt && k == Course.Start(CourseGen.Shapes(course), i) + j
    requires z == k as real * segLength
    requires var r, n, ratio := course[i], course[(i + 1) % |course|], j as real / course[i].cnt as real;
             c == Lerp(r.curve, n.curve, ratio) && p == Lerp(-r.pitch, -n.pitch, ratio)
    requires cur == pos + CourseDraws(course, i) + Billboard.RunDraws(course[i].bb, j)
    requires spr == Billboard.SetBillboard(rand, cur, course[i].bb, j).0
    ensures k < SegTotal(course)
    ensures SegmentAt(rand, pos, course, segLength, k) == Segment(z, 0.0, 0.0, c, p, spr, 0)
  {
    SubStart(course, i, j, k);
    var runs := CourseGen.Shapes(course);
    var i2 := (i + 1) % |course|;
    assert runs[i] == Course.Run(course[i].cnt, course[i].curve, course[i].pitch);
    assert runs[i2] == Course.Run(course[i2].cnt, course[i2].curve, course[i2].pitch);
    Course.SegAtBlendFlip(runs, i, j, k, segLength, z, c, p);
    SegmentAtParts(rand, pos, course, segLength, k, Course.Seg(z, c, p), spr);
  }

  /** Proof helper: `SegmentAt` is the flipped geometry of segment `k` with the billboard
      of its run. */
  lemma SegmentAtParts(rand: nat -> nat, pos: nat, course: seq<CourseGen.SegSrc>, segLength: real, k: nat,
                       g: Course.Seg, spr: Billboard.Placement)
    requires k < SegTotal(course) && g == Course.SegAt(CourseGen.Shapes(course), k, segLength, true)
    requires var ij := Sub(course, k);
             spr == Billboard.SetBillboard(rand, pos + CourseDraws(course, ij.0) + Billboard.RunDraws(course[ij.0].bb, ij.1), course[ij.0].bb, ij.1).0
    ensures SegmentAt(rand, pos, course, segLength, k) == Segment(g.z, 0.0, 0.0, g.curve, g.pitch, spr, 0)
  {
  }

  /** Every expanded segment lies at `k * seg_length`, starts with `x = y = 0` and no
      cars, and carries the geometry of the flipped expansion. */
  lemma ExpandedShape(rand: nat -> nat, pos: nat, course: seq<CourseGen.SegSrc>, segLength: real, k: nat)
    requires k < SegTotal(course)
    ensures var s := Expanded(rand, pos, course, segLength)[k];
            s.z == k as real * segLength && s.x == 0.0 && s.y == 0.0 && s.cars == 0 &&
            Course.Seg(s.z, s.curve, s.pitch) == Course.Expand(CourseGen.Shapes(course), segLength, true)[k]
  {
    Course.ExpandZ(CourseGen.Shapes(course), k, segLength, true);
  }

  /** The expanded course is evenly spaced and already in its frame-independent form. */
  lemma ExpandedFixed(rand: nat -> nat, pos: nat, course: seq<CourseGen.SegSrc>, segLength: real, r: seq<Segment>)
    requires r == Expanded(rand, pos, course, segLength)
    ensures forall k :: 0 <= k < |r| ==> r[k].z == k as real * segLength && Fixed(r[k]) == r[k]
  {
    forall k | 0 <= k < |r| ensures r[k].z == k as real * segLength && Fixed(r[k]) == r[k] {
      ExpandedShape(rand, pos, course, segLength, k);
    }
  }

  /** Every expanded segment carries a billboard its run's zone allows at its sub-index. */
  lemma ExpandedLegal(rand: nat -> nat, pos: nat, course: seq<CourseGen.SegSrc>, segLength: real, k: nat)
    requires k < SegTotal(course)
    ensures var ij := Sub(course, k);
            Billboard.Legal(course[ij.0].bb, ij.1, Expanded(rand, pos, course, segLength)[k].spr)
  {
    var ij := Sub(course, k);
    var cur := pos + CourseDraws(course, ij.0) + Billboard.RunDraws(course[ij.0].bb, ij.1);
    assert Expanded(rand, pos, course, segLength)[k].spr == Billboard.SetBillboard(rand, cur, course[ij.0].bb, ij.1).0;
    Billboard.SetBillboardLegal(rand, cur, course[ij.0].bb, ij.1);
  }

  /** The first segment of each run has the run's own curve and its negated pitch. */
  lemma ExpandedRunStart(rand: nat -> nat, pos: nat, course: seq<CourseGen.SegSrc>, segLength: real, i: nat)
    requires i < |course| && course[i].cnt > 0
    ensures Course.Start(CourseGen.Shapes(course), i) < SegTotal(course)
    ensures var s := Expanded(rand, pos, course, segLength)[Course.Start(CourseGen.Shapes(course), i)];
            s.curve == course[i].curve && s.pitch == -course[i].pitch
  {
    Course.ExpandRunStart(CourseGen.Shapes(course), i, segLength, true);
  }

  // ---------------------------------------------------------------- the frame

  /** Window point `k` from accumulators `a`, for segment `i`: shifted by `shift_cam_x`,
      lowered by `road_y`, shaded `15 - i % 16`. */
  function DtOf(a: Projection.Acc, shift: real, roadY: real, i: nat, spr: Billboard.Placement): Dt
  {
    Dt(a.x + shift, a.y + roadY, a.z, Projection.Band(i, 16), i, spr)
  }

  /** The accumulators before the first point, from the segment under the camera. */
  function Origin(road: seq<Segment>, idx: nat, ccz: real, segLength: real): Projection.Acc
    requires idx < |road| && segLength > 0.0
  {
    Projection.Origin(Geometry(road)[idx], ccz, segLength)
  }

  /** Window point `k` from segment `idx` with the accumulators starting at `a0`: it
      stands for segment `(idx + k) % seg_max` and shows that segment's billboard. */
  function PointAt(road: seq<Segment>, idx: nat, a0: Projection.Acc, segLength: real, shift: real, roadY: real, k: nat): Dt
    requires idx < |road|
  {
    var i := Projection.Visit(idx, k, |road|);
    DtOf(Projection.AccAt(Geometry(road), idx, a0, segLength, k), shift, roadY, i, road[i].spr)
  }

  /** The `n` window points from segment `idx` with the camera at `ccz`. */
  function Window(road: seq<Segment>, idx: nat, ccz: real, segLength: real, shift: real, roadY: real, n: nat): (w: seq<Dt>)
    requires idx < |road| && segLength > 0.0
    ensures |w| == n
  {
    var a0 := Origin(road, idx, ccz, segLength);
    seq(n, k requires 0 <= k => PointAt(road, idx, a0, segLength, shift, roadY, k))
  }

  /** With the camera on an evenly spaced course and no more points than segments, the
      window starts less than one segment behind the camera, its points are one segment
      apart, every point stands for a different segment, and the shading band is in
      `[0, 15]`, 15 exactly on every sixteenth segment. */
  lemma WindowShape(road: seq<Segment>, idx: nat, ccz: real, segLength: real, shift: real, roadY: real, n: nat)
    requires idx < |road| && segLength > 0.0 && 0 < n <= |road|
    requires forall k :: 0 <= k < |road| ==> road[k].z == k as real * segLength
    requires road[idx].z <= ccz < road[idx].z + segLength
    ensures var w := Window(road, idx, ccz, segLength, shift, roadY, n);
            -segLength < w[0].z <= 0.0 &&
            forall k :: 0 <= k < n ==> w[k].z == w[0].z + k as real * segLength
    ensures var w := Window(road, idx, ccz, segLength, shift, roadY, n);
            forall k :: 0 <= k < n ==>
              w[k].idx == Projection.Visit(idx, k, |road|) && 0 <= w[k].attr <= 15 &&
              (w[k].attr == 15 <==> w[k].idx % 16 == 0)
    ensures var w := Window(road, idx, ccz, segLength, shift, roadY, n);
            forall k1, k2 :: 0 <= k1 < k2 < n ==> w[k1].idx != w[k2].idx
  {
    var w := Window(road, idx, ccz, segLength, shift, roadY, n);
    var g := Geometry(road);
    var a0 := Origin(road, idx, ccz, segLength);
    Projection.OriginOnSegment(g[idx], ccz, segLength);
    forall k | 0 <= k < n ensures w[k].z == w[0].z + k as real * segLength {
      Projection.AccZ(g, idx, a0, segLength, k);
    }
    forall k1, k2 | 0 <= k1 < k2 < n ensures w[k1].idx != w[k2].idx {
      Projection.VisitDistinct(idx, k1, k2, |road|);
    }
  }

  /** The window position of segment `m` from segment `idx` on: the `k` with
      `(idx + k) % seg_max == m`. */
  function Offset(idx: nat, m: nat, n: nat): (k: nat)
    requires idx < n && m < n
    ensures k < n
  {
    (m + n - idx) % n
  }

  /** Segment `m` is visited at its offset from `idx`. */
  lemma VisitOffset(idx: nat, m: nat, n: nat)
    requires idx < n && m < n
    ensures Projection.Visit(idx, Offset(idx, m, n), n) == m
  {
    if m >= idx {
      ModUnique(m + n - idx, n, 1, m - idx);
      ModUnique(idx + (m - idx), n, 0, m);
    } else {
      ModUnique(m + n - idx, n, 0, m + n - idx);
      ModUnique(idx + (m + n - idx), n, 1, m);
    }
  }

  /** Within one lap of the course, window position `k` is the offset of the segment it visits. */
  lemma OffsetOfVisit(idx: nat, k: nat, n: nat)
    requires idx < n && k < n
    ensures Offset(idx, Projection.Visit(idx, k, n), n) == k
  {
    if idx + k < n {
      ModUnique(idx + k, n, 0, idx + k);
      ModUnique(idx + k + n - idx, n, 1, k);
    } else {
      ModUnique(idx + k, n, 1, idx + k - n);
      ModUnique(idx + k - n + n - idx, n, 0, k);
    }
  }

  /** `Offset` and `Visit` undo each other on one lap of the course. */
  lemma OffsetsVisit(idx: nat, n: nat)
    requires idx < n
    ensures forall m :: 0 <= m < n ==> Projection.Visit(idx, Offset(idx, m, n), n) == m
    ensures forall k :: 0 <= k < n ==> Offset(idx, Projection.Visit(idx, k, n), n) == k
  {
    forall m | 0 <= m < n ensures Projection.Visit(idx, Offset(idx, m, n), n) == m {
      VisitOffset(idx, m, n);
    }
    forall k | 0 <= k < n ensures Offset(idx, Projection.Visit(idx, k, n), n) == k {
      OffsetOfVisit(idx, k, n);
    }
  }

  /** The segment after the window loop wrote point `p` back into it: the point's
      screen position, and its car flags cleared. */
  function WrittenBack(s: Segment, p: Dt): Segment
  {
    s.(x := p.x, y := p.y, cars := 0)
  }

  /** Segment `m` after a frame of `n` window points from `idx` with window `d`: written
      back if the window visits it, then with the car bits `bits` ORed into its flags. */
  function Framed(s: Segment, idx: nat, m: nat, segMax: nat, n: nat, d: seq<Dt>, bits: bv8): (r: Segment)
    requires idx < segMax && m < segMax && n <= |d|
    ensures Fixed(r) == Fixed(s)
    ensures Offset(idx, m, segMax) < n ==> r.x == d[Offset(idx, m, segMax)].x && r.y == d[Offset(idx, m, segMax)].y && r.cars == bits
    ensures Offset(idx, m, segMax) >= n ==> r.x == s.x && r.y == s.y && r.cars == s.cars | bits
  {
    var w := if Offset(idx, m, segMax) < n then WrittenBack(s, d[Offset(idx, m, segMax)]) else s;
    w.(cars := w.cars | bits)
  }
}
