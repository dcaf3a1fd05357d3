/** `02_ps3d.c`: the line-only road. The global work `gw` is a class whose arrays are the
    fixed-size `segdata[SEG_MAX_LIMIT]` and `dt[VIEW_DIST]`; `init_work` is the constructor,
    and `update` moves the camera and rewrites the window. */
module Road02C {
  import opened Numeric
  import Course
  import Projection
  import FixedCourse

  const ViewDist := 160

  /** The `road_y` local of `update`. */
  const RoadY: real := -10.0

  /** The window `update` records for the camera at `cam` on `road`: from the segment under
      the camera, point `k` is the accumulators after `k` steps, lowered by `road_y`. */
  function Window(road: seq<Course.Seg>, cam: real, segLength: real): (w: seq<Projection.Point>)
    requires |road| > 0 && segLength > 0.0
    ensures |w| == ViewDist
  {
    var idx := Projection.SegIndexC(cam, segLength, |road|);
    var a0 := Projection.Origin(road[idx], CFmod(cam, segLength * |road| as real), segLength);
    seq(ViewDist, k requires 0 <= k => Projection.PointOf(Projection.AccAt(road, idx, a0, segLength, k), RoadY))
  }

  /** With the camera on an evenly spaced course, the window starts less than one segment
      behind the camera and its points are one segment apart. */
  lemma WindowSpaced(road: seq<Course.Seg>, cam: real, segLength: real)
    requires |road| > 0 && segLength > 0.0
    requires forall k :: 0 <= k < |road| ==> road[k].z == k as real * segLength
    requires 0.0 <= cam < |road| as real * segLength
    ensures var w := Window(road, cam, segLength);
            -segLength < w[0].z <= 0.0 &&
            forall k :: 0 <= k < |w| ==> w[k].z == w[0].z + k as real * segLength
  {
    var w := Window(road, cam, segLength);
    var idx := Projection.SegIndexC(cam, segLength, |road|);
    var a0 := Projection.Origin(road[idx], CFmod(cam, segLength * |road| as real), segLength);
    assert segLength * |road| as real == |road| as real * segLength;
    Projection.WindowStart(road, cam, segLength);
    forall k | 0 <= k < |w| ensures w[k].z == w[0].z + k as real * segLength {
      Projection.AccZ(road, idx, a0, segLength, k);
    }
  }

  class Gwk {
    /** `segdata_src`, the run table. */
    const segdataSrc: seq<Course.Run>
    const segLength: real
    const spd: real
    var cameraZ: real
    var segMax: nat
    var segTotalLength: real
    const dt: array<Projection.Point>
    const segdata: array<Course.Seg>
    /** The expanded course, as `init_course_data` leaves it in `segdata`. */
    ghost const road: seq<Course.Seg>

    /** The course is the run table expanded, and the camera is on it. */
    ghost predicate Valid()
      reads this, segdata
    {
      segLength == 5.0 && spd == segLength * 0.1 && |segdataSrc| > 0 &&
      dt.Length == ViewDist && segdata.Length == FixedCourse.SegMaxLimit &&
      segMax == Course.SegCount(segdataSrc) && 0 < segMax <= segdata.Length &&
      segTotalLength == 5.0 * segMax as real &&
      segdata[..segMax] == road &&
      (forall k :: 0 <= k < |road| ==> road[k].z == k as real * 5.0) &&
      0.0 <= cameraZ < segTotalLength
    }

    /** `init_work` followed by `init_course_data`. */
    constructor ()
      ensures Valid() && cameraZ == 0.0 && segMax == 195
      ensures segdataSrc == FixedCourse.Table && road == Course.Expand(segdataSrc, segLength, false)
    {
      segdataSrc := FixedCourse.Table;
      segLength := 5.0;
      spd := 5.0 * 0.1;
      cameraZ := 0.0;
      dt := new Projection.Point[ViewDist](_ => Projection.Point(0.0, 0.0, 0.0));
      segdata := new Course.Seg[FixedCourse.SegMaxLimit](_ => Course.Seg(0.0, 0.0, 0.0));
      road := Course.Expand(FixedCourse.Table, 5.0, false);
      new;
      segMax := Course.CountSegments(segdataSrc);
      assert segMax == FixedCourse.SegMax();
      segTotalLength := segLength * segMax as real;
      InitCourseData();
      forall k | 0 <= k < |road| ensures road[k].z == k as real * segLength {
        Course.ExpandZ(segdataSrc, k, segLength, false);
      }
    }

    /** `init_course_data`: walks `segp` over `segdata`, writing every run's segments with
        curve and pitch blended toward the next run (the last run blends toward the first). */
    method InitCourseData()
      requires segLength > 0.0 && |segdataSrc| > 0 && Course.SegCount(segdataSrc) <= segdata.Length
      modifies segdata
      ensures forall m :: 0 <= m < Course.SegCount(segdataSrc) ==>
                segdata[m] == Course.SegAt(segdataSrc, m, segLength, false)
    {
      var src := segdataSrc;
      var z := 0.0;
      var k := 0;
      assert src[..|src|] == src;
      for i := 0 to |src|
        invariant k == Course.Start(src, i) && z == k as real * segLength && k <= Course.SegCount(src)
        invariant forall m {:trigger segdata[m]} :: 0 <= m < k ==> segdata[m] == Course.SegAt(src, m, segLength, false)
      {
        Course.StartNext(src, i);
        Course.StartMono(src, i + 1, |src|);
        for j := 0 to src[i].cnt
          invariant k == Course.Start(src, i) + j && z == k as real * segLength
          invariant forall m {:trigger segdata[m]} :: 0 <= m < k ==> segdata[m] == Course.SegAt(src, m, segLength, false)
        {
          var k1, z1 := k + 1, z + segLength;
          StepOn(k, segLength, z, k1, z1);
          WriteSegment(i, j, k, z);
          k, z := k1, z1;
        }
      }
    }

    /** One pass of the inner loop of `init_course_data`: segment `j` of run `i`, blended at
        `ratio = j / cnt` toward run `(i + 1) % len`, is written at `segp = &segdata[k]`. */
    method WriteSegment(i: nat, j: nat, k: nat, z: real)
      requires i < |segdataSrc| && j < segdataSrc[i].cnt
      requires k == Course.Start(segdataSrc, i) + j && z == k as real * segLength && k < segdata.Length
      modifies segdata
      ensures k < Course.SegCount(segdataSrc) && segdata[k] == Course.SegAt(segdataSrc, k, segLength, false)
      ensures forall m :: 0 <= m < segdata.Length && m != k ==> segdata[m] == old(segdata[m])
    {
      var src := segdataSrc;
      var i2 := (i + 1) % |src|;
      var cnt, curve, pitch := src[i].cnt, src[i].curve, src[i].pitch;
      var nextCurve, nextPitch := src[i2].curve, src[i2].pitch;
      var ratio := j as real / cnt as real;
      var c := Lerp(curve, nextCurve, ratio);
      var p := Lerp(pitch, nextPitch, ratio);
      Course.SegAtBlendPlain(src, i, j, k, segLength, z, c, p);
      segdata[k] := Course.Seg(z, c, p);
    }

    /** `update`: advance the camera with one wrap, find the segment under it, and record
        the `VIEW_DIST` window points, each before the accumulators move on. */
    method Update()
      requires Valid()
      modifies this`cameraZ, dt
      ensures Valid()
      ensures cameraZ == Projection.CameraStep(old(cameraZ), spd, segTotalLength).0
      ensures dt[..] == Window(road, cameraZ, segLength)
    {
      MoveCamera();
      var idx := SegIndex();
      assert segdata[idx] == road[idx];
      var ccz := CFmod(cameraZ, segTotalLength);
      var a0 := Projection.Origin(segdata[idx], ccz, segLength);
      RecordWindow(idx, a0);
      assert dt[..] == Window(road, cameraZ, segLength);
    }

    /** The camera step of `update`: `camera_z += spd`, minus the course length once on overflow. */
    method MoveCamera()
      requires Valid()
      modifies this`cameraZ
      ensures Valid()
      ensures cameraZ == Projection.CameraStep(old(cameraZ), spd, segTotalLength).0
    {
      cameraZ := cameraZ + spd;
      if cameraZ >= segTotalLength {
        cameraZ := cameraZ - segTotalLength;
      }
    }

    /** The segment index of `update`: 0 at `camera_z == 0`, otherwise the truncated
        quotient reduced into `[0, seg_max)`. */
    method SegIndex() returns (idx: nat)
      requires Valid()
      ensures idx == Projection.SegIndexC(cameraZ, segLength, segMax) && idx < segMax
    {
      idx := 0;
      if cameraZ != 0.0 {
        var q := CRem(Trunc(cameraZ / segLength), segMax);
        if q < 0 {
          q := q + segMax;
        }
        idx := q;
      }
    }

    /** The window loop of `update`, from the accumulators `a0` at segment `idx`: point `k`
        is recorded, then the accumulators step over segment `(idx + k) % seg_max`. */
    method RecordWindow(idx: nat, a0: Projection.Acc)
      requires dt.Length == ViewDist && 0 < segMax <= segdata.Length && idx < segMax
      modifies dt
      ensures forall k :: 0 <= k < ViewDist ==>
                dt[k] == Projection.PointOf(Projection.AccAt(segdata[..segMax], idx, a0, segLength, k), RoadY)
    {
      ghost var road := segdata[..segMax];
      var cx, cy, cz, xd, yd := a0.x, a0.y, a0.z, a0.xd, a0.yd;
      var zd := segLength;
      var roadY := -10.0;
      for k := 0 to ViewDist
        invariant Projection.Acc(cx, cy, cz, xd, yd) == Projection.AccAt(road, idx, a0, segLength, k) &&
                  forall m {:trigger dt[m]} :: 0 <= m < k ==> dt[m] == Projection.PointOf(Projection.AccAt(road, idx, a0, segLength, m), RoadY)
      {
        dt[k] := Projection.Point(cx, cy + roadY, cz);
        cx := cx + xd;
        cy := cy + yd;
        cz := cz + zd;
        var i := (idx + k) % segMax;
        xd := xd + segdata[i].curve;
        yd := yd + segdata[i].pitch;
      }
    }
  }
}
