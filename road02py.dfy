/** `06_ps3d.py`, the Python original of the line-only road. `Gwk` holds Python lists:
    `segdata` is built once by appending in `__init__`, and `render` moves the camera and
    builds the window list `dt`, which it then reverses to draw from far to near. */
module Road02Py {
  import opened Numeric
  import Course
  import Projection
  import FixedCourse

  /** The `road_y` local of `render`. */
  const RoadY: real := -10.0

  /** The "expand segment data" block of `Gwk.__init__`: every run's segments are appended
      in order, curve and pitch blended toward the next run at `ratio = j / cnt`. */
  method ExpandCourse(src: seq<Course.Run>, segLength: real) returns (segdata: seq<Course.Seg>)
    ensures segdata == Course.Expand(src, segLength, false)
  {
    segdata := [];
    var z := 0.0;
    ghost var k := 0;
    assert src[..|src|] == src;
    for i := 0 to |src|
      invariant k == |segdata| == Course.Start(src, i) && z == k as real * segLength && k <= Course.SegCount(src)
      invariant forall m {:trigger segdata[m]} :: 0 <= m < k ==> segdata[m] == Course.SegAt(src, m, segLength, false)
    {
      Course.StartNext(src, i);
      Course.StartMono(src, i + 1, |src|);
      for j := 0 to src[i].cnt
        invariant k == |segdata| == Course.Start(src, i) + j && z == k as real * segLength
        invariant forall m {:trigger segdata[m]} :: 0 <= m < k ==> segdata[m] == Course.SegAt(src, m, segLength, false)
      {
        var seg := NewSegment(src, i, j, k, z, segLength);
        segdata := segdata + [seg];
        ghost var k0, z0 := k, z;
        z := z + segLength;
        k := k + 1;
        StepOn(k0, segLength, z0, k, z);
      }
    }
  }

  /** The dictionary appended for segment `j` of run `i` (`d0 = segdata_src[i]`,
      `d1 = segdata_src[(i + 1) % len]`), `z` being the running position. */
  method NewSegment(src: seq<Course.Run>, i: nat, j: nat, ghost k: nat, z: real, segLength: real) returns (seg: Course.Seg)
    requires i < |src| && j < src[i].cnt && k == Course.Start(src, i) + j && z == k as real * segLength
    ensures k < Course.SegCount(src) && seg == Course.SegAt(src, k, segLength, false)
  {
    var d0, d1 := src[i], src[(i + 1) % |src|];
    var cnt, curve, pitch := d0.cnt, d0.curve, d0.pitch;
    var nextCurve, nextPitch := d1.curve, d1.pitch;
    var ratio := j as real / cnt as real;
    var c := Lerp(curve, nextCurve, ratio);
    var p := Lerp(pitch, nextPitch, ratio);
    Course.SegAtBlendPlain(src, i, j, k, segLength, z, c, p);
    seg := Course.Seg(z, c, p);
  }

  /** `dt.reverse()`: the window list, far end first. */
  function Reversed<T>(pts: seq<T>): (r: seq<T>)
    ensures |r| == |pts|
  {
    seq(|pts|, i requires 0 <= i < |pts| => pts[|pts| - 1 - i])
  }

  /** Reversing twice gives the list back. */
  lemma ReversedTwice<T>(pts: seq<T>)
    ensures Reversed(Reversed(pts)) == pts
  {
  }

  /** The window `render` records, nearest point first, for the camera at `cam` on `road`:
      the segment under the camera is found with Python's `%`, and point `k` is the
      accumulators after `k` steps, lowered by `road_y`. */
  function Window(road: seq<Course.Seg>, cam: real, segLength: real, n: nat): (w: seq<Projection.Point>)
    requires |road| > 0 && segLength > 0.0
    ensures |w| == n
  {
    var idx := Projection.SegIndexPy(cam, segLength, |road|);
    var a0 := Projection.Origin(road[idx], PyFmod(cam, segLength * |road| as real), segLength);
    seq(n, k requires 0 <= k => Projection.PointOf(Projection.AccAt(road, idx, a0, segLength, k), RoadY))
  }

  /** With the camera on an evenly spaced course, the nearest point lies less than one
      segment behind the camera and the points are one segment apart; after the reversal
      the list runs from the far end down to that nearest point. */
  lemma WindowSpaced(road: seq<Course.Seg>, cam: real, segLength: real, n: nat)
    requires |road| > 0 && segLength > 0.0 && n > 0
    requires forall k :: 0 <= k < |road| ==> road[k].z == k as real * segLength
    requires 0.0 <= cam < |road| as real * segLength
    ensures var w := Window(road, cam, segLength, n);
            -segLength < w[0].z <= 0.0 &&
            forall k :: 0 <= k < n ==> w[k].z == w[0].z + k as real * segLength
    ensures var dt := Reversed(Window(road, cam, segLength, n));
            -segLength < dt[n - 1].z <= 0.0 &&
            forall k :: 0 <= k < n ==> dt[k].z == dt[n - 1].z + (n - 1 - k) as real * segLength
  {
    var w := Window(road, cam, segLength, n);
    var idx := Projection.SegIndexPy(cam, segLength, |road|);
    var a0 := Projection.Origin(road[idx], PyFmod(cam, segLength * |road| as real), segLength);
    assert segLength * |road| as real == |road| as real * segLength;
    Projection.WindowStart(road, cam, segLength);
    forall k | 0 <= k < n ensures w[k].z == w[0].z + k as real * segLength {
      Projection.AccZ(road, idx, a0, segLength, k);
    }
    ReversedSpacing(w, segLength, n);
  }

  /** Points one segment apart, reversed, are one segment apart counting from the end. */
  lemma ReversedSpacing(w: seq<Projection.Point>, segLength: real, n: nat)
    requires |w| == n > 0
    requires forall k :: 0 <= k < n ==> w[k].z == w[0].z + k as real * segLength
    ensures var dt := Reversed(w);
            dt[n - 1] == w[0] &&
            forall k :: 0 <= k < n ==> dt[k].z == dt[n - 1].z + (n - 1 - k) as real * segLength
  {
    var dt := Reversed(w);
    forall k | 0 <= k < n ensures dt[k].z == dt[n - 1].z + (n - 1 - k) as real * segLength {
      assert dt[k] == w[n - 1 - k];
    }
  }

  class Gwk {
    const segLength: real
    const viewDistance: nat
    const spd: real
    const segdataSrc: seq<Course.Run>
    const segMax: nat
    const segTotalLength: real
    const segdata: seq<Course.Seg>
    var cameraZ: real

    /** The course is expanded, segment `k` sits at `k * seg_length`, and the camera is on it. */
    ghost predicate Valid()
      reads this
    {
      segLength == 5.0 && spd == segLength * 0.1 && viewDistance == 160 &&
      segMax == |segdata| == Course.SegCount(segdataSrc) && segMax > 0 &&
      segTotalLength == 5.0 * segMax as real &&
      (forall k :: 0 <= k < |segdata| ==> segdata[k].z == k as real * 5.0) &&
      0.0 <= cameraZ < segTotalLength
    }

    /** `Gwk.__init__`: the run table, the segment count, and the expanded course. */
    constructor ()
      ensures Valid() && cameraZ == 0.0 && segMax == 195
      ensures segdataSrc == FixedCourse.Table && segdata == Course.Expand(segdataSrc, segLength, false)
    {
      segLength := 5.0;
      viewDistance := 160;
      cameraZ := 0.0;
      spd := 5.0 * 0.1;
      segdataSrc := FixedCourse.Table;
      var n := Course.CountSegments(FixedCourse.Table);
      assert n == FixedCourse.SegMax();
      segMax := n;
      segTotalLength := 5.0 * n as real;
      var course := ExpandCourse(FixedCourse.Table, 5.0);
      segdata := course;
      forall k | 0 <= k < |course| ensures course[k].z == k as real * 5.0 {
        Course.ExpandZ(FixedCourse.Table, k, 5.0, false);
      }
    }

    /** The camera and window part of `render`: the camera moves with one wrap, the window
        starts from the segment under it, and `dt` comes back reversed, far end first. */
    method Render() returns (dt: seq<Projection.Point>)
      requires Valid()
      modifies this`cameraZ
      ensures Valid()
      ensures cameraZ == Projection.CameraStep(old(cameraZ), spd, segTotalLength).0
      ensures dt == Reversed(Window(segdata, cameraZ, segLength, viewDistance))
    {
      MoveCamera();
      var idx := SegIndex();
      var ccz := PyFmod(cameraZ, segTotalLength);
      var a0 := Projection.Origin(segdata[idx], ccz, segLength);
      var pts := RecordWindow(idx, a0);
      assert pts == Window(segdata, cameraZ, segLength, viewDistance);
      dt := Reversed(pts);
    }

    method MoveCamera()
      requires Valid()
      modifies this`cameraZ
      ensures Valid()
      ensures cameraZ == Projection.CameraStep(old(cameraZ), spd, segTotalLength).0
    {
      cameraZ := cameraZ + spd;
      if cameraZ >= segTotalLength {
        cameraZ := cameraZ - segTotalLength;
      }
    }

    /** `idx`: 0 at `camera_z == 0`, otherwise `int(camera_z / seg_length) % seg_max`. */
    method SegIndex() returns (idx: nat)
      requires Valid()
      ensures idx == Projection.SegIndexPy(cameraZ, segLength, segMax) && idx < segMax
    {
      idx := 0;
      if cameraZ != 0.0 {
        var q := Trunc(cameraZ / segLength) % segMax;
        if q < 0 {
          q := q + segMax;
        }
        idx := q;
      }
    }

    /** The `for k in range(view_distance)` loop of `render`: point `k` is appended, then the
        accumulators step over segment `(idx + k) % seg_max`. */
    method RecordWindow(idx: nat, a0: Projection.Acc) returns (pts: seq<Projection.Point>)
      requires Valid() && idx < segMax
      ensures |pts| == viewDistance
      ensures forall k :: 0 <= k < |pts| ==> pts[k] == Projection.PointOf(Projection.AccAt(segdata, idx, a0, segLength, k), RoadY)
    {
      var cx, cy, cz, xd, yd := a0.x, a0.y, a0.z, a0.xd, a0.yd;
      var zd := segLength;
      var roadY := -10.0;
      pts := [];
      for k := 0 to viewDistance
        invariant |pts| == k
        invariant Projection.Acc(cx, cy, cz, xd, yd) == Projection.AccAt(segdata, idx, a0, segLength, k)
        invariant forall m {:trigger pts[m]} :: 0 <= m < k ==> pts[m] == Projection.PointOf(Projection.AccAt(segdata, idx, a0, segLength, m), RoadY)
      {
        pts := pts + [Projection.Point(cx, cy + roadY, cz)];
        cx := cx + xd;
        cy := cy + yd;
        cz := cz + zd;
        var i := (idx + k) % segMax;
        xd := xd + segdata[i].curve;
        yd := yd + segdata[i].pitch;
      }
    }
  }
}
