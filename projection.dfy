/** The per-frame camera walk every version shares: the camera advances with a single
    subtraction wrap, the segment under it is found by `(int)(z / seg_length) % seg_max`,
    and the visible road is built by a second-order accumulator (`x += xd; xd += curve`)
    that starts from the camera's offset inside its segment. */
module Projection {
  import opened Numeric
  import Course

  /** `(int)(v / seg_length) % seg_max` with C's truncating `%`, then `+ seg_max` when the
      remainder came out negative. */
  function WrapIndexC(v: real, segLength: real, segMax: nat): (idx: nat)
    requires segLength > 0.0 && segMax > 0
    ensures idx < segMax
  {
    var q := CRem(Trunc(v / segLength), segMax);
    if q < 0 then q + segMax else q
  }

  /** `int(v / seg_length) % seg_max` with Python's floored `%`. The source's following
      `if i < 0: i += seg_max` can never fire, since a floored remainder by a positive
      divisor is never negative, and is omitted. */
  function WrapIndexPy(v: real, segLength: real, segMax: nat): (idx: nat)
    requires segLength > 0.0 && segMax > 0
    ensures idx < segMax
  {
    Trunc(v / segLength) % segMax
  }

  /** The C and the Python index computations agree on every input, negative ones included. */
  lemma WrapIndexAgree(v: real, segLength: real, segMax: nat)
    requires segLength > 0.0 && segMax > 0
    ensures WrapIndexC(v, segLength, segMax) == WrapIndexPy(v, segLength, segMax)
  {
  }

  /** For a non-negative position the index is the segment number `floor(v / seg_length)`
      reduced modulo `seg_max`. */
  lemma WrapIndexFloor(v: real, segLength: real, segMax: nat)
    requires segLength > 0.0 && segMax > 0 && 0.0 <= v
    ensures WrapIndexC(v, segLength, segMax) == (v / segLength).Floor % segMax
  {
    ScaleBelow(v, segLength, 0.0);
  }

  /** `idx` of `update`: 0 while the camera sits exactly at 0, otherwise the wrapped index. */
  function SegIndexC(cam: real, segLength: real, segMax: nat): (idx: nat)
    requires segLength > 0.0 && segMax > 0
    ensures idx < segMax
  {
    if cam == 0.0 then 0 else WrapIndexC(cam, segLength, segMax)
  }

  function SegIndexPy(cam: real, segLength: real, segMax: nat): (idx: nat)
    requires segLength > 0.0 && segMax > 0
    ensures idx < segMax
  {
    if cam == 0.0 then 0 else WrapIndexPy(cam, segLength, segMax)
  }

  /** On the course (`0 <= camera_z < seg_max * seg_length`) the index is the segment
      that contains the camera: `idx * seg_length <= camera_z < (idx + 1) * seg_length`. */
  lemma SegIndexOnCourse(cam: real, segLength: real, segMax: nat)
    requires segLength > 0.0 && segMax > 0
    requires 0.0 <= cam < segMax as real * segLength
    ensures var idx := SegIndexC(cam, segLength, segMax);
            idx == SegIndexPy(cam, segLength, segMax) &&
            idx as real * segLength <= cam < (idx + 1) as real * segLength
  {
    if cam == 0.0 {
      assert 0.0 * segLength == 0.0 && 1.0 * segLength == segLength;
    } else {
      var f := (cam / segLength).Floor;
      WrapIndexFloor(cam, segLength, segMax);
      WrapIndexAgree(cam, segLength, segMax);
      assert cam < segMax as real * segLength;
      QuotBelow(cam, segLength, segMax as real);
      assert 0 <= f < segMax;
      ModUnique(f, segMax, 0, f);
      FloorSteps(cam, segLength);
    }
  }

  /** `camera_z += spd; if (camera_z >= seg_total_length) camera_z -= seg_total_length;`
      The flag says whether the camera wrapped (the 04 versions count a lap then). */
  function CameraStep(cam: real, spd: real, total: real): (r: (real, bool))
    ensures r.1 <==> cam + spd >= total
    ensures r.0 + (if r.1 then total else 0.0) == cam + spd
    ensures 0.0 <= cam < total && 0.0 <= spd <= total ==> 0.0 <= r.0 < total
  {
    var c := cam + spd;
    if c >= total then (c - total, true) else (c, false)
  }

  /** The running accumulators of the window loop: position `cx, cy, cz` and slopes `xd, yd`. */
  datatype Acc = Acc(x: real, y: real, z: real, xd: real, yd: real)

  /** One recorded window point (`DT` / the `dt` dictionaries): position only. */
  datatype Point = Point(x: real, y: real, z: real)

  /** The point recorded from the accumulators; the road is drawn `road_y` below them. */
  function PointOf(a: Acc, roadY: real): Point
  {
    Point(a.x, a.y + roadY, a.z)
  }

  /** A window point with its shading band `attr` (the 03 versions' `Dt`). The C port
      stores `attr` as a float holding the same small integer. */
  datatype Banded = Banded(x: real, y: real, z: real, attr: int)

  function BandedOf(a: Acc, roadY: real, attr: int): Banded
  {
    Banded(a.x, a.y + roadY, a.z, attr)
  }

  /** The accumulators before the first point, from the segment under the camera and the
      camera position `ccz` on the course: `camz = (ccz - z) / seg_length`,
      `xd = -camz * curve`, `cx = -(xd * camz)`, and likewise for pitch; `cz = z - ccz`. */
  function Origin(seg: Course.Seg, ccz: real, segLength: real): Acc
    requires segLength > 0.0
  {
    var camz := (ccz - seg.z) / segLength;
    var xd := -camz * seg.curve;
    var yd := -camz * seg.pitch;
    Acc(-(xd * camz), -(yd * camz), seg.z - ccz, xd, yd)
  }

  /** The camera's offset into its segment, as a fraction of the segment length. */
  function CamZ(seg: Course.Seg, ccz: real, segLength: real): real
    requires segLength > 0.0
  {
    (ccz - seg.z) / segLength
  }

  /** The first point sits on the parabola through the camera: `x0 = camz² * curve` and
      `y0 = camz² * pitch`, with slopes `-camz * curve` and `-camz * pitch`. */
  lemma OriginParabola(seg: Course.Seg, ccz: real, segLength: real)
    requires segLength > 0.0
    ensures var camz, a := CamZ(seg, ccz, segLength), Origin(seg, ccz, segLength);
            a.x == camz * camz * seg.curve && a.y == camz * camz * seg.pitch &&
            a.xd == -camz * seg.curve && a.yd == -camz * seg.pitch && a.z == seg.z - ccz
  {
  }

  /** When the camera lies inside the segment it stands on, `camz` is in `[0, 1)` and the
      first point is at most one segment behind the camera: `cz ∈ (-seg_length, 0]`. */
  lemma OriginOnSegment(seg: Course.Seg, ccz: real, segLength: real)
    requires segLength > 0.0 && seg.z <= ccz < seg.z + segLength
    ensures 0.0 <= CamZ(seg, ccz, segLength) < 1.0
    ensures -segLength < Origin(seg, ccz, segLength).z <= 0.0
  {
    UnitRatio(ccz - seg.z, segLength);
  }

  /** One iteration of the window loop: move along the slopes one segment further, then
      bend the slopes by the visited segment's curve and pitch. */
  function Step(a: Acc, seg: Course.Seg, segLength: real): Acc
  {
    Acc(a.x + a.xd, a.y + a.yd, a.z + segLength, a.xd + seg.curve, a.yd + seg.pitch)
  }

  /** Window point `k` visits segment `(idx + k) % seg_max`. */
  function Visit(idx: nat, k: nat, segMax: nat): (i: nat)
    requires segMax > 0
    ensures i < segMax
  {
    (idx + k) % segMax
  }

  /** The accumulators when point `k` is recorded. */
  function AccAt(road: seq<Course.Seg>, idx: nat, a0: Acc, segLength: real, k: nat): Acc
    requires |road| > 0
  {
    if k == 0 then a0
    else Step(AccAt(road, idx, a0, segLength, k - 1), road[Visit(idx, k - 1, |road|)], segLength)
  }

  /** The window points are evenly spaced: point `k` is `k` segments beyond the first. */
  lemma {:induction false} AccZ(road: seq<Course.Seg>, idx: nat, a0: Acc, segLength: real, k: nat)
    requires |road| > 0
    ensures AccAt(road, idx, a0, segLength, k).z == a0.z + k as real * segLength
  {
    if k > 0 {
      AccZ(road, idx, a0, segLength, k - 1);
      assert k as real * segLength == (k - 1) as real * segLength + segLength;
    }
  }

  /** The second difference of the lateral and vertical positions is the curve and pitch of
      the segment visited: the road bends by exactly the segment's curvature. */
  lemma AccSecondDiff(road: seq<Course.Seg>, idx: nat, a0: Acc, segLength: real, k: nat)
    requires |road| > 0
    ensures var a, b, c := AccAt(road, idx, a0, segLength, k), AccAt(road, idx, a0, segLength, k + 1),
                           AccAt(road, idx, a0, segLength, k + 2);
            var s := road[Visit(idx, k, |road|)];
            c.x - 2.0 * b.x + a.x == s.curve && c.y - 2.0 * b.y + a.y == s.pitch
  {
  }

  /** The sum of the curves of the `k` segments visited from `idx` on. */
  function CurveSum(road: seq<Course.Seg>, idx: nat, k: nat): real
    requires |road| > 0
  {
    if k == 0 then 0.0 else CurveSum(road, idx, k - 1) + road[Visit(idx, k - 1, |road|)].curve
  }

  /** The lateral slope at point `k` is the initial slope plus the curves visited so far. */
  lemma {:induction false} AccSlope(road: seq<Course.Seg>, idx: nat, a0: Acc, segLength: real, k: nat)
    requires |road| > 0
    ensures AccAt(road, idx, a0, segLength, k).xd == a0.xd + CurveSum(road, idx, k)
  {
    if k > 0 {
      AccSlope(road, idx, a0, segLength, k - 1);
    }
  }

  /** On a course without curves every window point is centred: `x == 0` and `xd == 0`. */
  lemma {:induction false} StraightRoadCentred(road: seq<Course.Seg>, idx: nat, ccz: real, segLength: real, k: nat)
    requires |road| > 0 && idx < |road| && segLength > 0.0
    requires forall i :: 0 <= i < |road| ==> road[i].curve == 0.0
    ensures var a := AccAt(road, idx, Origin(road[idx], ccz, segLength), segLength, k);
            a.x == 0.0 && a.xd == 0.0
  {
    if k > 0 {
      StraightRoadCentred(road, idx, ccz, segLength, k - 1);
    }
  }

  /** On a course whose segment `k` starts at `k * seg_length`, with the camera on the
      course, the first window point lies less than one segment behind the camera:
      `ccz = fmod(camera_z, total)` (C) or `camera_z % total` (Python) is the camera itself
      there, and it lies inside the segment `idx` found for it. */
  lemma WindowStart(road: seq<Course.Seg>, cam: real, segLength: real)
    requires |road| > 0 && segLength > 0.0
    requires forall k :: 0 <= k < |road| ==> road[k].z == k as real * segLength
    requires 0.0 <= cam < |road| as real * segLength
    ensures var idx := SegIndexC(cam, segLength, |road|);
            -segLength < Origin(road[idx], CFmod(cam, |road| as real * segLength), segLength).z <= 0.0
    ensures var idx := SegIndexPy(cam, segLength, |road|);
            -segLength < Origin(road[idx], PyFmod(cam, |road| as real * segLength), segLength).z <= 0.0
  {
    var idx := SegIndexC(cam, segLength, |road|);
    SegIndexOnCourse(cam, segLength, |road|);
    assert CFmod(cam, |road| as real * segLength) == cam;
    assert PyFmod(cam, |road| as real * segLength) == cam;
    assert (idx + 1) as real * segLength == road[idx].z + segLength;
    OriginOnSegment(road[idx], cam, segLength);
  }

  /** Within a window no longer than the course, no segment is visited twice. */
  lemma VisitDistinct(idx: nat, k1: nat, k2: nat, segMax: nat)
    requires segMax > 0 && k1 < k2 < segMax
    ensures Visit(idx, k1, segMax) != Visit(idx, k2, segMax)
  {
    var a, b := idx + k1, idx + k2;
    if a % segMax == b % segMax {
      var d := b - a;
      assert a == (a / segMax) * segMax + a % segMax;
      assert b == (b / segMax) * segMax + b % segMax;
      assert d == (b / segMax - a / segMax) * segMax;
      IntMulBounds(segMax, b / segMax - a / segMax);
      assert false;
    }
  }

  /** The shading band of segment `i`: `(m - 1) - i % m`, which counts down through `[0, m)`. */
  function Band(i: nat, m: nat): (a: int)
    requires m > 0
    ensures 0 <= a < m
    ensures a == m - 1 <==> i % m == 0
  {
    (m - 1) - i % m
  }
}
