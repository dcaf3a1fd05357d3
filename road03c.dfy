/** `03_ps3d_tex.c`: the textured road with a scrolling background. The global work `gw`
    is a class over the fixed-size arrays `segdata[SEG_MAX_LIMIT]` and `dt[VIEW_DIST]`;
    `init_work` (with `expand_segdata`) is the constructor, and `update` moves the camera,
    scrolls the background and rewrites the window, each point tagged with its shading band. */
module Road03C {
  import opened Numeric
  import Course
  import Projection
  import Background
  import FixedCourse

  const ViewDist := 160

  /** The `road_y` local of `update`; the `gw.road_y` field (-8.0) is not what it uses. */
  const RoadY: real := -10.0

  /** `(float)(7 - (i % 8))`: the texture band of segment `i`. */
  function Attr(i: nat): int
  {
    Projection.Band(i, 8)
  }

  /** The window `update` records for the camera at `cam` on `road`: point `k` is the
      accumulators after `k` steps, lowered by `road_y` and tagged with the band of the
      segment `(idx + k) % seg_max` it visits. */
  function Window(road: seq<Course.Seg>, cam: real, segLength: real): (w: seq<Projection.Banded>)
    requires |road| > 0 && segLength > 0.0
    ensures |w| == ViewDist
  {
    var idx := Projection.SegIndexC(cam, segLength, |road|);
    var a0 := Projection.Origin(road[idx], CFmod(cam, segLength * |road| as real), segLength);
    seq(ViewDist, k requires 0 <= k =>
      Projection.BandedOf(Projection.AccAt(road, idx, a0, segLength, k), RoadY,
                          Attr(Projection.Visit(idx, k, |road|))))
  }

  /** With the camera on an evenly spaced course, the window starts less than one segment
      behind the camera, its points are one segment apart, and every eighth segment of the
      course carries the brightest band 7. */
  lemma WindowSpaced(road: seq<Course.Seg>, cam: real, segLength: real)
    requires |road| > 0 && segLength > 0.0
    requires forall k :: 0 <= k < |road| ==> road[k].z == k as real * segLength
    requires 0.0 <= cam < |road| as real * segLength
    ensures var w := Window(road, cam, segLength);
            -segLength < w[0].z <= 0.0 &&
            forall k :: 0 <= k < |w| ==> w[k].z == w[0].z + k as real * segLength
    ensures var w, idx := Window(road, cam, segLength), Projection.SegIndexC(cam, segLength, |road|);
            forall k :: 0 <= k < |w| ==>
              0 <= w[k].attr <= 7 && (w[k].attr == 7 <==> Projection.Visit(idx, k, |road|) % 8 == 0)
  {
    var w := Window(road, cam, segLength);
    var idx := Projection.SegIndexC(cam, segLength, |road|);
    var a0 := Projection.Origin(road[idx], CFmod(cam, segLength * |road| as real), segLength);
    assert segLength * |road| as real == |road| as real * segLength;
    Projection.WindowStart(road, cam, segLength);
    forall k | 0 <= k < |w| ensures w[k].z == w[0].z + k as real * segLength {
      Projection.AccZ(road, idx, a0, segLength, k);
    }
  }

  /** `update_bg_pos` scrolls `bg_x` by `curve * (spd / spd_max) * 0.005`. */
  const BgGain: real := 0.005

  class Gwk {
    const segdataSrc: seq<Course.Run>
    const segLength: real
    const spdMax: real
    const spd: real
    const roadY: real
    const roadW: real
    var cameraZ: real
    var bgX: real
    var bgY: real
    var segMax: nat
    var segTotalLength: real
    const dt: array<Projection.Banded>
    const segdata: array<Course.Seg>
    /** The expanded course, as `expand_segdata` leaves it in `segdata`. */
    ghost const road: seq<Course.Seg>

    /** The course is the run table expanded, the camera is on it, and the background
        offsets are in range. */
    ghost predicate Valid()
      reads this, segdata
    {
      segLength == 4.0 && spdMax == segLength * 0.1 && spd == spdMax && |segdataSrc| > 0 &&
      dt.Length == ViewDist && segdata.Length == FixedCourse.SegMaxLimit &&
      segMax == Course.SegCount(segdataSrc) && 0 < segMax <= segdata.Length &&
      segTotalLength == 4.0 * segMax as real &&
      segdata[..segMax] == road &&
      (forall k :: 0 <= k < |road| ==> road[k].z == k as real * 4.0) &&
      0.0 <= cameraZ < segTotalLength &&
      -1.0 < bgX < 1.0 && -1.0 <= bgY <= 1.0
    }

    /** `init_work`: the constants, the segment count, and `expand_segdata`. */
    constructor ()
      ensures Valid() && cameraZ == 0.0 && bgX == 0.0 && bgY == 0.0 && segMax == 195
      ensures segdataSrc == FixedCourse.Table && road == Course.Expand(segdataSrc, segLength, false)
      ensures roadY == -8.0 && roadW == 15.0
    {
      segdataSrc := FixedCourse.Table;
      segLength := 4.0;
      spdMax := 4.0 * 0.1;
      spd := 4.0 * 0.1;
      roadY := -8.0;
      roadW := 15.0;
      cameraZ := 0.0;
      bgX := 0.0;
      bgY := 0.0;
      dt := new Projection.Banded[ViewDist](_ => Projection.Banded(0.0, 0.0, 0.0, 0));
      segdata := new Course.Seg[FixedCourse.SegMaxLimit](_ => Course.Seg(0.0, 0.0, 0.0));
      road := Course.Expand(FixedCourse.Table, 4.0, false);
      new;
      segMax := Course.CountSegments(segdataSrc);
      assert segMax == FixedCourse.SegMax();
      segTotalLength := segLength * segMax as real;
      ExpandSegdata();
      forall k | 0 <= k < |road| ensures road[k].z == k as real * segLength {
        Course.ExpandZ(segdataSrc, k, segLength, false);
      }
    }

    /** `expand_segdata`: walks `segp` over `segdata`, writing every run's segments with
        curve and pitch blended toward the next run (the last run blends toward the first). */
    method ExpandSegdata()
      requires segLength > 0.0 && |segdataSrc| > 0 && Course.SegCount(segdataSrc) <= segdata.Length
      modifies segdata
      ensures forall m :: 0 <= m < Course.SegCount(segdataSrc) ==>
                segdata[m] == Course.SegAt(segdataSrc, m, segLength, false)
    {
      var src := segdataSrc;
      var z := 0.0;
      var k := 0;
      assert src[..|src|] == src;
      for i := 0 to |src|
        invariant k == Course.Start(src, i) && z == k as real * segLength && k <= Course.SegCount(src)
        invariant forall m {:trigger segdata[m]} :: 0 <= m < k ==> segdata[m] == Course.SegAt(src, m, segLength, false)
      {
        Course.StartNext(src, i);
        Course.StartMono(src, i + 1, |src|);
        for j := 0 to src[i].cnt
          invariant k == Course.Start(src, i) + j && z == k as real * segLength
          invariant forall m {:trigger segdata[m]} :: 0 <= m < k ==> segdata[m] == Course.SegAt(src, m, segLength, false)
        {
          var k1, z1 := k + 1, z + segLength;
          StepOn(k, segLength, z, k1, z1);
          WriteSegment(i, j, k, z);
          k, z := k1, z1;
        }
      }
    }

    /** One pass of the inner loop of `expand_segdata`: segment `j` of run `i`, blended at
        `ratio = j / cnt` toward run `(i + 1) % len`, is written at `segp = &segdata[k]`. */
    method WriteSegment(i: nat, j: nat, k: nat, z: real)
      requires i < |segdataSrc| && j < segdataSrc[i].cnt
      requires k == Course.Start(segdataSrc, i) + j && z == k as real * segLength && k < segdata.Length
      modifies segdata
      ensures k < Course.SegCount(segdataSrc) && segdata[k] == Course.SegAt(segdataSrc, k, segLength, false)
      ensures forall m :: 0 <= m < segdata.Length && m != k ==> segdata[m] == old(segdata[m])
    {
      var src := segdataSrc;
      var i2 := (i + 1) % |src|;
      var cnt, curve, pitch := src[i].cnt, src[i].curve, src[i].pitch;
      var nextCurve, nextPitch := src[i2].curve, src[i2].pitch;
      var ratio := j as real / cnt as real;
      var c := Lerp(curve, nextCurve, ratio);
      var p := Lerp(pitch, nextPitch, ratio);
      Course.SegAtBlendPlain(src, i, j, k, segLength, z, c, p);
      segdata[k] := Course.Seg(z, c, p);
    }

    /** `update`: advance the camera with one wrap, find the segment under it, scroll the
        background by that segment's curve and pitch, and record the `VIEW_DIST` window
        points, each tagged with the band of the segment it visits. */
    method Update()
      requires Valid()
      modifies this`cameraZ, this`bgX, this`bgY, dt
      ensures Valid()
      ensures cameraZ == Projection.CameraStep(old(cameraZ), spd, segTotalLength).0
      ensures var idx := Projection.SegIndexC(cameraZ, segLength, segMax);
              bgX == Background.NextBgXC(old(bgX), road[idx].curve, spd, spdMax, BgGain) &&
              bgY == Background.NextBgY(old(bgY), road[idx].pitch, spd, spdMax)
      ensures dt[..] == Window(road, cameraZ, segLength)
    {
      MoveCamera();
      var idx := SegIndex();
      assert segdata[idx] == road[idx];
      var curve, pitch := segdata[idx].curve, segdata[idx].pitch;
      UpdateBgPos(curve, pitch);
      var ccz := CFmod(cameraZ, segTotalLength);
      var a0 := Projection.Origin(segdata[idx], ccz, segLength);
      RecordWindow(idx, a0);
      assert dt[..] == Window(road, cameraZ, segLength);
    }

    /** The camera step of `update`: `camera_z += spd`, minus the course length once on overflow. */
    method MoveCamera()
      requires Valid()
      modifies this`cameraZ
      ensures Valid()
      ensures cameraZ == Projection.CameraStep(old(cameraZ), spd, segTotalLength).0
    {
      cameraZ := cameraZ + spd;
      if cameraZ >= segTotalLength {
        cameraZ := cameraZ - segTotalLength;
      }
    }

    /** The segment index of `update`: 0 at `camera_z == 0`, otherwise the truncated
        quotient reduced into `[0, seg_max)`. */
    method SegIndex() returns (idx: nat)
      requires Valid()
      ensures idx == Projection.SegIndexC(cameraZ, segLength, segMax) && idx < segMax
    {
      idx := 0;
      if cameraZ != 0.0 {
        var q := CRem(Trunc(cameraZ / segLength), segMax);
        if q < 0 {
          q := q + segMax;
        }
        idx := q;
      }
    }

    /** `update_bg_pos`: `bg_x` moves with the curve and wraps by `fmodf`; `bg_y` follows the
        pitch, or drifts back to 0 on flat road, and is clamped to `[-1, 1]`. */
    method UpdateBgPos(curve: real, pitch: real)
      requires spdMax > 0.0
      modifies this`bgX, this`bgY
      ensures bgX == Background.NextBgXC(old(bgX), curve, spd, spdMax, BgGain)
      ensures bgY == Background.NextBgY(old(bgY), pitch, spd, spdMax)
    {
      bgX := bgX + curve * (spd / spdMax) * BgGain;
      Background.NextBgXCAt(old(bgX), curve, spd, spdMax, BgGain, bgX);
      bgX := CFmod(bgX, 1.0);
      if spd > 0.0 {
        if pitch != 0.0 {
          bgY := bgY + pitch * (spd / spdMax) * 0.02;
        } else {
          var d := (spd / spdMax) * 0.025;
          if bgY < 0.0 {
            bgY := bgY + d * 0.1;
            if bgY >= 0.0 {
              bgY := 0.0;
            }
          }
          if bgY > 0.0 {
            bgY := bgY - d * 0.1;
            if bgY <= 0.0 {
              bgY := 0.0;
            }
          }
        }
      }
      if bgY < -1.0 {
        bgY := -1.0;
      }
      if bgY > 1.0 {
        bgY := 1.0;
      }
    }

    /** The window loop of `update`, from the accumulators `a0` at segment `idx`: point `k`
        takes the band of segment `i = (idx + k) % seg_max`, is recorded, and then the
        accumulators step over segment `i`. */
    method RecordWindow(idx: nat, a0: Projection.Acc)
      requires dt.Length == ViewDist && 0 < segMax <= segdata.Length && idx < segMax
      modifies dt
      ensures forall k :: 0 <= k < ViewDist ==>
                dt[k] == Projection.BandedOf(Projection.AccAt(segdata[..segMax], idx, a0, segLength, k), RoadY,
                                             Attr(Projection.Visit(idx, k, segMax)))
    {
      ghost var road := segdata[..segMax];
      var cx, cy, cz, xd, yd := a0.x, a0.y, a0.z, a0.xd, a0.yd;
      var zd := segLength;
      var roadY := -10.0;
      for k := 0 to ViewDist
        invariant Projection.Acc(cx, cy, cz, xd, yd) == Projection.AccAt(road, idx, a0, segLength, k)
        invariant forall m {:trigger dt[m]} :: 0 <= m < k ==>
                    dt[m] == Projection.BandedOf(Projection.AccAt(road, idx, a0, segLength, m), RoadY,
                                                 Attr(Projection.Visit(idx, m, segMax)))
      {
        var i := (idx + k) % segMax;
        var a := 7 - i % 8;
        dt[k] := Projection.Banded(cx, cy + roadY, cz, a);
        cx := cx + xd;
        cy := cy + yd;
        cz := cz + zd;
        xd := xd + segdata[i].curve;
        yd := yd + segdata[i].pitch;
      }
    }
  }
}
