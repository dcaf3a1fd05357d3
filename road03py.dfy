/** `09_ps3d_tex.py`, the Python original of the textured road. `Gwk` holds Python lists:
    `segdata` is built once in `__init__` exactly as in the line-only version, and `update`
    moves the camera, scrolls the background and rebuilds the window list `gw.dt`, each
    point tagged with its shading band. */
module Road03Py {
  import opened Numeric
  import Course
  import Projection
  import Background
  import FixedCourse
  import Road02Py

  /** `update_bg_pos` scrolls `bg_x` by `curve * (spd / spd_max) * 0.005`. */
  const BgGain: real := 0.005

  /** The window `update` leaves in `gw.dt`, nearest point first, for the camera at `cam` on
      `road`: point `k` is the accumulators after `k` steps, lowered by `road_h`, tagged
      `7 - i % 8` for the segment `i = (idx + k) % seg_max` it visits. */
  function Window(road: seq<Course.Seg>, cam: real, segLength: real, n: nat, roadH: real): (w: seq<Projection.Banded>)
    requires |road| > 0 && segLength > 0.0
    ensures |w| == n
  {
    var idx := Projection.SegIndexPy(cam, segLength, |road|);
    var a0 := Projection.Origin(road[idx], PyFmod(cam, segLength * |road| as real), segLength);
    seq(n, k requires 0 <= k =>
      Projection.BandedOf(Projection.AccAt(road, idx, a0, segLength, k), roadH,
                          Projection.Band(Projection.Visit(idx, k, |road|), 8)))
  }

  /** With the camera on an evenly spaced course, the nearest point lies less than one
      segment behind the camera, the points are one segment apart, and the band is 7
      exactly on every eighth segment of the course. */
  lemma WindowSpaced(road: seq<Course.Seg>, cam: real, segLength: real, n: nat, roadH: real)
    requires |road| > 0 && segLength > 0.0 && n > 0
    requires forall k :: 0 <= k < |road| ==> road[k].z == k as real * segLength
    requires 0.0 <= cam < |road| as real * segLength
    ensures var w := Window(road, cam, segLength, n, roadH);
            -segLength < w[0].z <= 0.0 &&
            forall k :: 0 <= k < n ==> w[k].z == w[0].z + k as real * segLength
    ensures var w, idx := Window(road, cam, segLength, n, roadH), Projection.SegIndexPy(cam, segLength, |road|);
            forall k :: 0 <= k < n ==>
              0 <= w[k].attr <= 7 && (w[k].attr == 7 <==> Projection.Visit(idx, k, |road|) % 8 == 0)
  {
    var w := Window(road, cam, segLength, n, roadH);
    var idx := Projection.SegIndexPy(cam, segLength, |road|);
    var a0 := Projection.Origin(road[idx], PyFmod(cam, segLength * |road| as real), segLength);
    assert segLength * |road| as real == |road| as real * segLength;
    Projection.WindowStart(road, cam, segLength);
    forall k | 0 <= k < n ensures w[k].z == w[0].z + k as real * segLength {
      Projection.AccZ(road, idx, a0, segLength, k);
    }
  }

  class Gwk {
    const segLength: real
    const viewDistance: nat
    const spdMax: real
    const spd: real
    const roadH: real
    const roadW: real
    const segdataSrc: seq<Course.Run>
    const segMax: nat
    const segTotalLength: real
    const segdata: seq<Course.Seg>
    var cameraZ: real
    var bgX: real
    var bgY: real
    var dt: seq<Projection.Banded>

    /** The course is expanded, segment `k` sits at `k * seg_length`, the camera is on it,
        and the background offsets are in range. */
    ghost predicate Valid()
      reads this
    {
      segLength == 4.0 && spdMax == segLength * 0.1 && spd == spdMax && viewDistance == 160 &&
      segMax == |segdata| == Course.SegCount(segdataSrc) && segMax > 0 &&
      segTotalLength == 4.0 * segMax as real &&
      (forall k :: 0 <= k < |segdata| ==> segdata[k].z == k as real * 4.0) &&
      0.0 <= cameraZ < segTotalLength &&
      0.0 <= bgX < 1.0 && -1.0 <= bgY <= 1.0
    }

    /** `Gwk.__init__`: the constants, the run table, the segment count, and the expanded
        course, built by the same appending loop as the line-only version. */
    constructor ()
      ensures Valid() && cameraZ == 0.0 && bgX == 0.0 && bgY == 0.0 && dt == [] && segMax == 195
      ensures roadH == -8.0 && roadW == 15.0
      ensures segdataSrc == FixedCourse.Table && segdata == Course.Expand(segdataSrc, segLength, false)
    {
      segLength := 4.0;
      viewDistance := 160;
      cameraZ := 0.0;
      spdMax := 4.0 * 0.1;
      spd := 4.0 * 0.1;
      roadH := -8.0;
      roadW := 15.0;
      bgX := 0.0;
      bgY := 0.0;
      dt := [];
      segdataSrc := FixedCourse.Table;
      var n := Course.CountSegments(FixedCourse.Table);
      assert n == FixedCourse.SegMax();
      segMax := n;
      segTotalLength := 4.0 * n as real;
      var course := Road02Py.ExpandCourse(FixedCourse.Table, 4.0);
      segdata := course;
      forall k | 0 <= k < |course| ensures course[k].z == k as real * 4.0 {
        Course.ExpandZ(FixedCourse.Table, k, 4.0, false);
      }
    }

    /** `update`: advance the camera with one wrap, find the segment under it, scroll the
        background by that segment's curve and pitch, and rebuild `gw.dt`. */
    method Update()
      requires Valid()
      modifies this`cameraZ, this`bgX, this`bgY, this`dt
      ensures Valid()
      ensures cameraZ == Projection.CameraStep(old(cameraZ), spd, segTotalLength).0
      ensures var idx := Projection.SegIndexPy(cameraZ, segLength, segMax);
              bgX == Background.NextBgXPy(old(bgX), segdata[idx].curve, spd, spdMax, BgGain) &&
              bgY == Background.NextBgY(old(bgY), segdata[idx].pitch, spd, spdMax)
      ensures dt == Window(segdata, cameraZ, segLength, viewDistance, roadH)
    {
      MoveCamera();
      var idx := SegIndex();
      var z, curve, pitch := segdata[idx].z, segdata[idx].curve, segdata[idx].pitch;
      UpdateBgPos(curve, pitch);
      var ccz := PyFmod(cameraZ, segTotalLength);
      var a0 := Projection.Origin(segdata[idx], ccz, segLength);
      RecordWindow(idx, a0);
      assert dt == Window(segdata, cameraZ, segLength, viewDistance, roadH);
    }

    method MoveCamera()
      requires Valid()
      modifies this`cameraZ
      ensures Valid()
      ensures cameraZ == Projection.CameraStep(old(cameraZ), spd, segTotalLength).0
    {
      cameraZ := cameraZ + spd;
      if cameraZ >= segTotalLength {
        cameraZ := cameraZ - segTotalLength;
      }
    }

    /** `idx`: 0 at `camera_z == 0`, otherwise `int(camera_z / seg_length) % seg_max`. */
    method SegIndex() returns (idx: nat)
      requires Valid()
      ensures idx == Projection.SegIndexPy(cameraZ, segLength, segMax) && idx < segMax
    {
      idx := 0;
      if cameraZ != 0.0 {
        var q := Trunc(cameraZ / segLength) % segMax;
        if q < 0 {
          q := q + segMax;
        }
        idx := q;
      }
    }

    /** `update_bg_pos`: `bg_x` moves with the curve and wraps by Python's `% 1.0`; `bg_y`
        follows the pitch, or drifts back to 0 on flat road, and is clamped to `[-1, 1]`. */
    method UpdateBgPos(curve: real, pitch: real)
      requires spdMax > 0.0
      modifies this`bgX, this`bgY
      ensures bgX == Background.NextBgXPy(old(bgX), curve, spd, spdMax, BgGain)
      ensures bgY == Background.NextBgY(old(bgY), pitch, spd, spdMax)
    {
      bgX := bgX + curve * (spd / spdMax) * BgGain;
      Background.NextBgXPyAt(old(bgX), curve, spd, spdMax, BgGain, bgX);
      bgX := PyFmod(bgX, 1.0);
      if spd > 0.0 {
        if pitch != 0.0 {
          bgY := bgY + pitch * (spd / spdMax) * 0.02;
        } else {
          var d := (spd / spdMax) * 0.025;
          if bgY < 0.0 {
            bgY := bgY + d * 0.1;
            if bgY >= 0.0 {
              bgY := 0.0;
            }
          }
          if bgY > 0.0 {
            bgY := bgY - d * 0.1;
            if bgY <= 0.0 {
              bgY := 0.0;
            }
          }
        }
      }
      if bgY < -1.0 {
        bgY := -1.0;
      }
      if bgY > 1.0 {
        bgY := 1.0;
      }
    }

    /** The window loop of `update`: `gw.dt` is emptied, then point `k` takes the band of
        segment `i = (idx + k) % seg_max`, is appended, and the accumulators step over `i`. */
    method RecordWindow(idx: nat, a0: Projection.Acc)
      requires Valid() && idx < segMax
      modifies this`dt
      ensures |dt| == viewDistance
      ensures forall k :: 0 <= k < |dt| ==>
                dt[k] == Projection.BandedOf(Projection.AccAt(segdata, idx, a0, segLength, k), roadH,
                                             Projection.Band(Projection.Visit(idx, k, segMax), 8))
    {
      var cx, cy, cz, xd, yd := a0.x, a0.y, a0.z, a0.xd, a0.yd;
      var zd := segLength;
      dt := [];
      for k := 0 to viewDistance
        invariant |dt| == k
        invariant Projection.Acc(cx, cy, cz, xd, yd) == Projection.AccAt(segdata, idx, a0, segLength, k)
        invariant forall m {:trigger dt[m]} :: 0 <= m < k ==>
                    dt[m] == Projection.BandedOf(Projection.AccAt(segdata, idx, a0, segLength, m), roadH,
                                                 Projection.Band(Projection.Visit(idx, m, segMax), 8))
      {
        var i := (idx + k) % segMax;
        var a := 7 - i % 8;
        dt := dt + [Projection.Banded(cx, cy + roadH, cz, a)];
        cx := cx + xd;
        cy := cy + yd;
        cz := cz + zd;
        xd := xd + segdata[i].curve;
        yd := yd + segdata[i].pitch;
      }
    }
  }
}
