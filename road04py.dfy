/** `10_ps3d_tex.py`, the Python original of the road with billboards and cars. `Gwk` holds
    Python lists: `__init__` sets the constants and calls `init_work`, which draws a random
    run table, counts its segments and expands it. The module-level `update` runs one step
    of the five-step session machine (step 0 re-creates the course), speeds the camera up
    by `spda` toward `spd_max_m`, moves it, scrolls the background, rebuilds `gw.dt` while
    writing each window point back into its segment dictionary, and moves the cars.
    `random.randint` is the stream `rand` read at the cursor `randPos`; `math.sin` is a
    parameter. */
module Road04Py {
  import opened Numeric
  import Course
  import Projection
  import Billboard
  import CourseGen
  import Scenery
  import Session
  import Background
  import Traffic
  import Road04C

  /** `update_bg` scrolls `bg_x` by `curve * (spd / spd_max) * 0.005`. */
  const BgGain: real := 0.005

  /** `gw.spd += gw.spda; if gw.spd >= gw.spd_max_m: gw.spd = gw.spd_max_m`: the speed
      never passes the cap, never gains more than `spda`, and with a positive `spda`
      below the cap it never slows down. */
  function Accelerated(spd: real, spda: real, cap: real): (r: real)
    ensures r <= cap && r <= spd + spda
    ensures r == cap || r == spd + spda
    ensures spd <= cap && 0.0 <= spda ==> spd <= r
  {
    if spd + spda >= cap then cap else spd + spda
  }

  /** The speed after `n` frames from a standing start with the game's `spda = 16 / 180`
      and `spd_max_m = 6.4`. */
  function SpeedAfter(n: nat): real
  {
    if n == 0 then 0.0 else Accelerated(SpeedAfter(n - 1), 16.0 / 180.0, 6.4)
  }

  /** The camera gains `spda` every frame for the first 72 frames, and reaches
      `spd_max_m` exactly on the 72nd. */
  lemma {:induction false} SpeedRamp(n: nat)
    requires n <= 72
    ensures SpeedAfter(n) == n as real * (16.0 / 180.0)
  {
    if n > 0 {
      SpeedRamp(n - 1);
      assert (n - 1) as real * (16.0 / 180.0) + 16.0 / 180.0 == n as real * (16.0 / 180.0);
    }
  }

  /** From then on the speed stays at `spd_max_m`. */
  lemma {:induction false} SpeedCapped(n: nat)
    requires n >= 72
    ensures SpeedAfter(n) == 6.4
  {
    if n == 72 {
      SpeedRamp(72);
    } else {
      SpeedCapped(n - 1);
    }
  }

  /** The segment the expansion loop appends after `done`, the segments before it: segment
      `j` of run `i`, blended at `ratio = j / cnt`, with the billboard drawn from `cur`. */
  lemma NextSegment(rand: nat -> nat, pos0: nat, src: seq<CourseGen.SegSrc>, segLength: real,
                    want: seq<Scenery.Segment>, done: seq<Scenery.Segment>,
                    i: nat, j: nat, z: real, c: real, p: real, cur: nat, spr: Billboard.Placement)
    requires want == Scenery.Expanded(rand, pos0, src, segLength)
    requires i < |src| && j < src[i].cnt && |done| == Course.Start(CourseGen.Shapes(src), i) + j
    requires segLength == 20.0 && |done| < |want| && done == want[..|done|] && z == |done| as real * 20.0
    requires var r, n, ratio := src[i], src[(i + 1) % |src|], j as real / src[i].cnt as real;
             c == Lerp(r.curve, n.curve, ratio) && p == Lerp(-r.pitch, -n.pitch, ratio)
    requires cur == pos0 + Scenery.CourseDraws(src, i) + Billboard.RunDraws(src[i].bb, j)
    requires spr == Billboard.SetBillboard(rand, cur, src[i].bb, j).0
    ensures done + [Scenery.Segment(z, 0.0, 0.0, c, p, spr, 0)] == want[..|done| + 1]
  {
    var k := |done|;
    Scenery.SegmentAtIs(rand, pos0, src, segLength, i, j, k, z, c, p, cur, spr);
    PrefixSnoc(want, done, Scenery.Segment(z, 0.0, 0.0, c, p, spr, 0));
  }

  /** Appending the next element of `want` to a prefix of `want` gives the next prefix. */
  lemma PrefixSnoc<T>(want: seq<T>, done: seq<T>, x: T)
    requires |done| < |want| && done == want[..|done|] && want[|done|] == x
    ensures done + [x] == want[..|done| + 1]
  {
    assert want[..|done| + 1] == want[..|done|] + [x];
  }

  class Gwk {
    /** The numbers `random.randint` draws from, in order. */
    const rand: nat -> nat
    const sin: real -> real
    /** How many numbers have been drawn so far. */
    var randPos: nat

    const framerate: real
    const segLength: real
    const viewDistance: nat
    const roadY: real
    const roadW: real
    const shiftCamX: real
    const spdMax: real
    const spdMaxM: real
    const spda: real
    const lapsLimit: int

    var step: int
    var fadev: real
    var laps: int
    var cameraZ: real
    var spd: real
    var bgX: real
    var bgY: real
    var angle: real

    var segdataSrc: seq<CourseGen.SegSrc>
    var segMax: nat
    var segTotalLength: real
    var segdata: seq<Scenery.Segment>
    var dt: seq<Scenery.Dt>
    var cars: seq<Traffic.Car>

    /** Where the random cursor stood once the run table was drawn. */
    ghost var coursePos: nat
    /** The course as `expand_segdata` built it; frames rewrite only `x`, `y` and `cars`. */
    ghost var base: seq<Scenery.Segment>

    /** What `__init__` sets: `seg_length = 20`, `view_distance = 200`, `road_w = 300`,
        `shift_cam_x = road_w * 0.45`, `spd_max = seg_length * 0.8`,
        `spd_max_m = spd_max * 0.4`, `spda = spd_max / (framerate * 3)`. */
    ghost predicate Consts()
    {
      framerate == 60.0 && segLength == 20.0 && viewDistance == 200 && roadY == -100.0 && roadW == 300.0 &&
      shiftCamX == 135.0 && spdMax == 16.0 && spdMaxM == 6.4 && spda == 16.0 / 180.0 && lapsLimit == 2
    }

    /** The session machine is at one of its five steps, the fade level is in `[0, 1]`,
        and the speed is between standing and `spd_max_m`. */
    ghost predicate SessionOk()
      reads this`step, this`fadev, this`spd
    {
      0 <= step <= 4 && 0.0 <= fadev <= 1.0 && 0.0 <= spd <= spdMaxM
    }

    /** `seg_max` counts the run table's segments (at least a window's worth),
        `seg_total_length = seg_length * seg_max` with `seg_length = 20`, and `base` is
        evenly spaced by `seg_length`. */
    ghost predicate CourseShape()
      reads this`segdataSrc, this`segMax, this`segTotalLength, this`base
    {
      segMax == Scenery.SegTotal(segdataSrc) && 200 <= segMax &&
      segTotalLength == 20.0 * segMax as real && |base| == segMax &&
      (forall m :: 0 <= m < segMax ==> base[m].z == m as real * 20.0)
    }

    /** `segdata` holds `base` up to the frame-written fields `x`, `y` and `cars`. */
    ghost predicate Laid()
      reads this`segMax, this`base, this`segdata
    {
      |segdata| == segMax && |base| == segMax &&
      forall m :: 0 <= m < segMax ==> Scenery.Fixed(segdata[m]) == base[m]
    }

    /** The camera is on the course and the background offsets are in range. */
    ghost predicate OnCourse()
      reads this`cameraZ, this`segTotalLength, this`bgX, this`bgY
    {
      0.0 <= cameraZ < segTotalLength && 0.0 <= bgX < 1.0 && -1.0 <= bgY <= 1.0
    }

    /** Car `i` has kind `i`, and the two cars that run along the course are on it. */
    ghost predicate CarsPlaced()
      reads this`segTotalLength, this`cars
    {
      |cars| == Traffic.CarCount && (forall c :: 0 <= c < Traffic.CarCount ==> cars[c].kind == c) &&
      0.0 <= cars[2].z < segTotalLength && 0.0 <= cars[3].z < segTotalLength
    }

    /** A course is in place: the constants, the session, the course, the camera and the
        cars are as above. */
    ghost predicate Valid()
      reads this
    {
      Consts() && SessionOk() && CourseShape() && Laid() && OnCourse() && CarsPlaced()
    }

    /** `Gwk.__init__`: the constants, empty lists, then `init_work`. */
    constructor (rand: nat -> nat, sin: real -> real)
      ensures Valid() && step == 0 && fadev == 1.0 && spd == 0.0 && cameraZ == 0.0 && dt == []
      ensures this.rand == rand && this.sin == sin
      ensures (segdataSrc, coursePos) == CourseGen.GenPy(rand, 0)
      ensures segdata == Scenery.Expanded(rand, coursePos, segdataSrc, segLength)
    {
      this.rand := rand;
      this.sin := sin;
      randPos := 0;
      framerate := 60.0;
      segLength := 20.0;
      viewDistance := 200;
      roadY := -100.0;
      roadW := 300.0;
      shiftCamX := 300.0 * 0.45;
      spdMax := 20.0 * 0.8;
      spdMaxM := (20.0 * 0.8) * 0.4;
      spda := (20.0 * 0.8) / (60.0 * 3.0);
      lapsLimit := 2;
      segdataSrc := [];
      segdata := [];
      dt := [];
      cars := [];
      new;
      InitWork();
    }

    /** `init_work`: the session, camera, speed, background and sway phase start over,
        `dt` is emptied, the four cars are created, and a random course is drawn, counted
        and expanded. */
    method InitWork()
      requires Consts()
      modifies this`step, this`cameraZ, this`spd, this`laps, this`fadev, this`bgX, this`bgY, this`angle
      modifies this`dt, this`cars
      modifies this`randPos, this`segdataSrc, this`segMax, this`segTotalLength, this`segdata, this`coursePos, this`base
      ensures Valid()
      ensures step == 0 && fadev == 1.0 && laps == 0 && spd == 0.0 && cameraZ == 0.0
      ensures bgX == 0.0 && bgY == 0.0 && angle == 0.0
      ensures dt == [] && cars == Traffic.InitialCars()
      ensures (segdataSrc, coursePos) == CourseGen.GenPy(rand, old(randPos))
      ensures segdata == base == Scenery.Expanded(rand, coursePos, segdataSrc, segLength)
      ensures randPos == coursePos + Scenery.CourseDraws(segdataSrc, |segdataSrc|)
    {
      ResetScalars();
      dt := [];
      InitCars();
      InitCourse();
    }

    /** The scalar assignments at the top of `init_work`. */
    method ResetScalars()
      modifies this`step, this`cameraZ, this`spd, this`laps, this`fadev, this`bgX, this`bgY, this`angle
      ensures step == 0 && fadev == 1.0 && laps == 0 && spd == 0.0 && cameraZ == 0.0
      ensures bgX == 0.0 && bgY == 0.0 && angle == 0.0
    {
      step := 0;
      cameraZ := 0.0;
      spd := 0.0;
      laps := 0;
      fadev := 1.0;
      bgX := 0.0;
      bgY := 0.0;
      angle := 0.0;
    }

    /** The car loop of `init_work`: car `i` gets kind `i`, position 0 and sprite 9. */
    method InitCars()
      modifies this`cars
      ensures cars == Traffic.InitialCars()
    {
      cars := [];
      for i := 0 to Traffic.CarCount
        invariant cars == Traffic.InitialCars()[..i]
      {
        cars := cars + [Traffic.Car(i, 0.0, 0.0, 0.0, 9)];
      }
    }

    /** The course part of `init_work`: `init_course_random`, `count_seg_number` and
        `expand_segdata`. */
    method InitCourse()
      requires Consts()
      modifies this`randPos, this`segdataSrc, this`segMax, this`segTotalLength, this`segdata, this`coursePos, this`base
      ensures CourseShape() && Laid()
      ensures (segdataSrc, coursePos) == CourseGen.GenPy(rand, old(randPos))
      ensures segdata == base == Scenery.Expanded(rand, coursePos, segdataSrc, segLength)
      ensures randPos == coursePos + Scenery.CourseDraws(segdataSrc, |segdataSrc|)
    {
      DrawCourse();
      ExpandSegdata();
      Scenery.ExpandedFixed(rand, coursePos, segdataSrc, 20.0, segdata);
      base := segdata;
    }

    /** `init_course_random` followed by `count_seg_number`. */
    method DrawCourse()
      requires Consts()
      modifies this`randPos, this`segdataSrc, this`segMax, this`segTotalLength, this`coursePos
      ensures (segdataSrc, coursePos) == CourseGen.GenPy(rand, old(randPos)) && randPos == coursePos
      ensures segMax == Scenery.SegTotal(segdataSrc) && 443 <= segMax
      ensures segTotalLength == 20.0 * segMax as real
    {
      ghost var pos0 := randPos;
      InitCourseRandom();
      coursePos := randPos;
      CourseGen.GenPySegCount(rand, pos0);
      assert segLength == 20.0;
      CountSegNumber();
    }

    /** `random.randint(0, n - 1)`. */
    method Rand(n: nat) returns (r: nat)
      requires n > 0
      modifies this`randPos
      ensures r == Billboard.Roll(rand, old(randPos), n) && randPos == old(randPos) + 1
    {
      r := rand(randPos) % n;
      randPos := randPos + 1;
    }

    /** `r = randint(0, 99); if r <= 60: v = randint(0, n - 1) * 0.01; if r >= 30: v *= -1.0`,
        the draw of a curve (`n = 300`) or a pitch (`n = 40`). */
    method SignedDraw(n: nat) returns (v: real)
      requires n > 0
      modifies this`randPos
      ensures (v, randPos) == CourseGen.SignedDraw(rand, old(randPos), n)
    {
      v := 0.0;
      var r := Rand(100);
      if r <= 60 {
        var m := Rand(n);
        v := m as real * 0.01;
        if r >= 30 {
          v := v * -1.0;
        }
      }
    }

    /** The `for t in tbl` loop: the first row whose `per` is at least `r` gives the zone
        and the count `min + randint(0, rnd - 1)`. */
    method PickZone(r: int) returns (bbkind: Billboard.Zone, count: nat)
      modifies this`randPos
      ensures (bbkind, count, randPos) == CourseGen.PickZone(rand, old(randPos), CourseGen.TablePy, r, 0)
    {
      CourseGen.TablesWellFormed();
      bbkind := Billboard.None;
      count := 10;
      var tbl := CourseGen.TablePy;
      ghost var p := randPos;
      for ti := 0 to |tbl|
        invariant randPos == p && count == 10 && bbkind == Billboard.None
        invariant CourseGen.PickZone(rand, p, tbl, r, ti) == CourseGen.PickZone(rand, p, tbl, r, 0)
      {
        if r <= tbl[ti].per {
          bbkind := tbl[ti].kind;
          var v := Rand(tbl[ti].rnd);
          count := tbl[ti].min + v;
          break;
        }
      }
    }

    /** The drawing part of one iteration of `init_course_random`: curve and pitch, zone
        and count from `tbl`, and the halving on slope zones. */
    method DrawRun() returns (d: CourseGen.SegSrc)
      modifies this`randPos
      ensures (d, randPos) == CourseGen.Draft(rand, old(randPos), CourseGen.TablePy)
    {
      CourseGen.TablesWellFormed();
      ghost var p0 := randPos;
      var curve := SignedDraw(300);
      ghost var c0, p1 := curve, randPos;
      var pitch := SignedDraw(40);
      ghost var t0, p2 := pitch, randPos;
      var r := Rand(100);
      var bbkind, count := PickZone(r);
      if bbkind == Billboard.SlopeL || bbkind == Billboard.SlopeR {
        if curve < -2.0 || curve > 2.0 {
          curve := curve * 0.5;
        }
        if pitch < -0.5 || pitch > 0.5 {
          pitch := pitch * 0.5;
        }
      }
      CourseGen.DraftOf(rand, p0, CourseGen.TablePy, c0, p1, t0, p2, bbkind, count, randPos, curve, pitch);
      d := CourseGen.SegSrc(count, curve, pitch, bbkind);
    }

    /** A drawn iteration `j` of `init_course_random`: a sharp run (`|curve| > 1`) is
        appended right after its arrow run, any other run alone. */
    method AppendDrawn(segmMax: nat, j: nat)
      requires 2 <= j < segmMax - 1
      modifies this`randPos, this`segdataSrc
      ensures CourseGen.GenLoopPy(rand, segmMax, j, old(segdataSrc), old(randPos)) ==
              CourseGen.GenLoopPy(rand, segmMax, j + 1, segdataSrc, randPos)
    {
      ghost var acc, p := segdataSrc, randPos;
      var d := DrawRun();
      CourseGen.GenLoopPyDrawn(rand, segmMax, j, acc, p, d, randPos);
      if d.curve > 1.0 || d.curve < -1.0 {
        if d.curve > 1.0 {
          segdataSrc := segdataSrc + [CourseGen.SegSrc(20, 0.0, 0.0, Billboard.ArrowL)];
        } else {
          segdataSrc := segdataSrc + [CourseGen.SegSrc(20, 0.0, 0.0, Billboard.ArrowR)];
        }
        segdataSrc := segdataSrc + [d];
        assert segdataSrc == acc + [CourseGen.ArrowRun(d.curve), d];
      } else {
        segdataSrc := segdataSrc + [d];
      }
    }

    /** `init_course_random`: `segm_max = 20 + randint(0, 24)` iterations; a start run, a
        beam run, drawn runs, and a finish run after which the loop breaks. */
    method InitCourseRandom()
      modifies this`randPos, this`segdataSrc
      ensures (segdataSrc, randPos) == CourseGen.GenPy(rand, old(randPos))
    {
      ghost var pos0 := randPos;
      var r := Rand(25);
      var segmMax := 20 + r;
      assert segmMax == CourseGen.CourseLen(rand, pos0);
      segdataSrc := [];
      for j := 0 to segmMax
        invariant CourseGen.GenLoopPy(rand, segmMax, j, segdataSrc, randPos) == CourseGen.GenPy(rand, pos0)
      {
        if j == 0 {
          segdataSrc := segdataSrc + [CourseGen.RunStart];
        } else if j == 1 {
          segdataSrc := segdataSrc + [CourseGen.RunBeam];
        } else if j >= segmMax - 1 {
          segdataSrc := segdataSrc + [CourseGen.RunFinish];
          break;
        } else {
          AppendDrawn(segmMax, j);
        }
      }
    }

    /** `count_seg_number`: `seg_max` is the sum of the run counts, and
        `seg_total_length = seg_length * seg_max`. */
    method CountSegNumber()
      modifies this`segMax, this`segTotalLength
      ensures segMax == Scenery.SegTotal(segdataSrc)
      ensures segTotalLength == segLength * segMax as real
    {
      ghost var runs := CourseGen.Shapes(segdataSrc);
      segMax := 0;
      for i := 0 to |segdataSrc|
        invariant segMax == Course.Start(runs, i)
      {
        Course.StartNext(runs, i);
        segMax := segMax + segdataSrc[i].cnt;
      }
      assert runs[..|runs|] == runs;
      segTotalLength := segLength * segMax as real;
    }

    /** One pass of the inner loop of `expand_segdata`: segment `j` of run `i`, blended
        toward run `(i + 1) % len` with pitch negated, with the billboard `set_billboard`
        returns, is appended at `z`. */
    method AppendSegment(i: nat, j: nat, z: real, ghost want: seq<Scenery.Segment>, ghost pos0: nat)
      requires segLength == 20.0 && i < |segdataSrc| && j < segdataSrc[i].cnt
      requires |segdata| == Course.Start(CourseGen.Shapes(segdataSrc), i) + j && z == |segdata| as real * 20.0
      requires want == Scenery.Expanded(rand, pos0, segdataSrc, segLength)
      requires |segdata| < |want| && segdata == want[..|segdata|]
      requires randPos == pos0 + Scenery.CourseDraws(segdataSrc, i) + Billboard.RunDraws(segdataSrc[i].bb, j)
      modifies this`segdata, this`randPos
      ensures |segdata| == old(|segdata|) + 1 <= |want| && segdata == want[..|segdata|]
      ensures randPos == pos0 + Scenery.CourseDraws(segdataSrc, i) + Billboard.RunDraws(segdataSrc[i].bb, j + 1)
    {
      var d0, d1 := segdataSrc[i], segdataSrc[(i + 1) % |segdataSrc|];
      var cnt, curve, pitch, bboard := d0.cnt, d0.curve, -d0.pitch, d0.bb;
      var nextCurve, nextPitch := d1.curve, -d1.pitch;
      var ratio := j as real / cnt as real;
      var c := Lerp(curve, nextCurve, ratio);
      var p := Lerp(pitch, nextPitch, ratio);
      ghost var cur := randPos;
      var res := Billboard.SetBillboard(rand, randPos, bboard, j);
      randPos := res.1;
      var spr := res.0;
      NextSegment(rand, pos0, segdataSrc, segLength, want, segdata, i, j, z, c, p, cur, spr);
      segdata := segdata + [Scenery.Segment(z, 0.0, 0.0, c, p, spr, 0)];
    }

    /** The inner loop of `expand_segdata` for run `i`: its `cnt` segments are appended,
        `z` stepping by `seg_length`. */
    method ExpandRun(i: nat, z0: real, ghost want: seq<Scenery.Segment>, ghost pos0: nat) returns (z: real)
      requires segLength == 20.0 && i < |segdataSrc|
      requires |segdata| == Course.Start(CourseGen.Shapes(segdataSrc), i) && z0 == |segdata| as real * 20.0
      requires want == Scenery.Expanded(rand, pos0, segdataSrc, segLength)
      requires |segdata| + segdataSrc[i].cnt <= |want| && segdata == want[..|segdata|]
      requires randPos == pos0 + Scenery.CourseDraws(segdataSrc, i)
      modifies this`segdata, this`randPos
      ensures |segdata| == old(|segdata|) + segdataSrc[i].cnt && z == |segdata| as real * 20.0
      ensures segdata == want[..|segdata|]
      ensures randPos == pos0 + Scenery.CourseDraws(segdataSrc, i + 1)
    {
      z := z0;
      var cnt := segdataSrc[i].cnt;
      for j := 0 to cnt
        invariant |segdata| == old(|segdata|) + j && z == |segdata| as real * 20.0
        invariant segdata == want[..|segdata|]
        invariant randPos == pos0 + Scenery.CourseDraws(segdataSrc, i) + Billboard.RunDraws(segdataSrc[i].bb, j)
      {
        var k1, z1 := |segdata| + 1, z + segLength;
        StepOn(|segdata|, 20.0, z, k1, z1);
        AppendSegment(i, j, z, want, pos0);
        z := z1;
      }
    }

    /** `expand_segdata`: `segdata` is rebuilt from an empty list, every run's segments in
        order, `z` stepping by `seg_length`. */
    method ExpandSegdata()
      requires segLength == 20.0
      modifies this`segdata, this`randPos
      ensures segdata == Scenery.Expanded(rand, old(randPos), segdataSrc, segLength)
      ensures randPos == old(randPos) + Scenery.CourseDraws(segdataSrc, |segdataSrc|)
    {
      ghost var runs := CourseGen.Shapes(segdataSrc);
      ghost var pos0 := randPos;
      ghost var want := Scenery.Expanded(rand, pos0, segdataSrc, segLength);
      var z := 0.0;
      segdata := [];
      assert runs[..|runs|] == runs;
      for i := 0 to |segdataSrc|
        invariant |segdata| == Course.Start(runs, i) <= |want| && z == |segdata| as real * 20.0
        invariant segdata == want[..|segdata|]
        invariant randPos == pos0 + Scenery.CourseDraws(segdataSrc, i)
      {
        Course.StartNext(runs, i);
        Course.StartMono(runs, i + 1, |runs|);
        z := ExpandRun(i, z, want, pos0);
      }
      assert |segdata| == |want|;
    }

    /** The module-level `update(gw)`: one frame. The session chain runs first (its step 0
        re-creates the course with `init_work`), then the camera speeds up and moves, and
        the background, window and cars follow. */
    method Update()
      requires Valid()
      modifies this`step, this`cameraZ, this`spd, this`laps, this`fadev, this`bgX, this`bgY, this`angle
      modifies this`dt, this`cars
      modifies this`randPos, this`segdataSrc, this`segMax, this`segTotalLength, this`segdata, this`coursePos, this`base
      ensures Valid()
      ensures var ph := Session.SwitchPy(Session.Phase(old(step), old(fadev), old(laps)));
              var (cam, wrapped) := Projection.CameraStep(if old(step) == 0 then 0.0 else old(cameraZ), spd, segTotalLength);
              step == ph.step && fadev == ph.fadev && cameraZ == cam && laps == ph.laps + (if wrapped then 1 else 0)
      ensures spd == Accelerated(if old(step) == 0 then 0.0 else old(spd), spda, spdMaxM)
      ensures dt == Scenery.Window(base, Projection.SegIndexPy(cameraZ, segLength, segMax), PyFmod(cameraZ, segTotalLength),
                                   segLength, shiftCamX, roadY, viewDistance)
      ensures forall c :: 0 <= c < Traffic.CarCount ==>
                cars[c] == Traffic.MoveCar(if old(step) == 0 then Traffic.InitialCars()[c] else old(cars)[c],
                                           cameraZ, angle, sin, roadW, spdMax, segTotalLength)
      ensures var idx := Projection.SegIndexPy(cameraZ, segLength, segMax);
              bgX == Background.NextBgXPy(if old(step) == 0 then 0.0 else old(bgX), base[idx].curve, spd, spdMax, BgGain) &&
              bgY == Background.NextBgY(if old(step) == 0 then 0.0 else old(bgY), base[idx].pitch, spd, spdMax)
      ensures angle == (if old(step) == 0 then 0.0 else old(angle)) + spd * 1.0
      ensures old(step) != 0 ==> segMax == old(segMax)
      ensures var idx := Projection.SegIndexPy(cameraZ, segLength, segMax);
              forall m :: 0 <= m < segMax ==>
                segdata[m] == Scenery.Framed(if old(step) == 0 then base[m] else old(segdata)[m], idx, m, segMax, viewDistance, dt,
                                             Traffic.CarBits(cars, m, segLength, segMax))
    {
      ghost var c0 := if step == 0 then Traffic.InitialCars() else cars;
      ghost var st0, sd0 := step, segdata;
      SessionStep();
      assert cars == c0;
      ghost var sd1 := segdata;
      assert forall m :: 0 <= m < segMax ==> sd1[m] == if st0 == 0 then base[m] else sd0[m];
      Drive();
    }

    /** The `if gw.step == ...` chain of `update`: 0 runs `init_work` and starts the
        fade-in; the other steps are `PhaseStep`. */
    method SessionStep()
      requires Valid()
      modifies this`step, this`cameraZ, this`spd, this`laps, this`fadev, this`bgX, this`bgY, this`angle
      modifies this`dt, this`cars
      modifies this`randPos, this`segdataSrc, this`segMax, this`segTotalLength, this`segdata, this`coursePos, this`base
      ensures Valid()
      ensures Session.Phase(step, fadev, laps) == Session.SwitchPy(Session.Phase(old(step), old(fadev), old(laps)))
      ensures old(step) == 0 ==> cameraZ == 0.0 && spd == 0.0 && cars == Traffic.InitialCars() &&
                                 (segdataSrc, coursePos) == CourseGen.GenPy(rand, old(randPos)) &&
                                 base == Scenery.Expanded(rand, coursePos, segdataSrc, segLength)
      ensures old(step) != 0 ==> cameraZ == old(cameraZ) && spd == old(spd) && cars == old(cars) &&
                                 segdataSrc == old(segdataSrc) && base == old(base) && randPos == old(randPos)
      ensures old(step) == 0 ==> bgX == 0.0 && bgY == 0.0 && angle == 0.0 && segdata == base
      ensures old(step) != 0 ==> bgX == old(bgX) && bgY == old(bgY) && angle == old(angle) && segdata == old(segdata)
    {
      if step == 0 {
        InitWork();
        fadev := 1.0;
        step := step + 1;
      } else {
        PhaseStep();
      }
    }

    /** Steps 1 to 4 of the chain: fade in, wait for `laps_limit` laps, clear `fadev`, fade
        out and return to 0. Only `step`, `fadev` and `laps` move, as `SwitchPy` says. */
    method PhaseStep()
      requires Valid() && step != 0
      modifies this`step, this`fadev, this`laps
      ensures Valid()
      ensures Session.Phase(step, fadev, laps) == Session.SwitchPy(Session.Phase(old(step), old(fadev), old(laps)))
    {
      if step == 1 {
        fadev := fadev - 1.0 / (framerate * 1.3);
        if fadev <= 0.0 {
          fadev := 0.0;
          step := step + 1;
        }
      } else if step == 2 {
        if laps >= lapsLimit {
          step := step + 1;
        }
      } else if step == 3 {
        fadev := 0.0;
        step := step + 1;
      } else if step == 4 {
        fadev := fadev + 1.0 / (framerate * 2.0);
        if fadev >= 1.0 {
          fadev := 1.0;
          laps := 0;
          step := 0;
        }
      }
    }

    /** The frame part of `update`, after the session chain: `Advance` and then `Render`. */
    method Drive()
      requires Valid()
      modifies this`spd, this`cameraZ, this`laps, this`bgX, this`bgY, this`angle, this`dt, this`segdata, this`cars
      ensures Valid()
      ensures spd == Accelerated(old(spd), spda, spdMaxM)
      ensures var (cam, wrapped) := Projection.CameraStep(old(cameraZ), spd, segTotalLength);
              cameraZ == cam && laps == old(laps) + (if wrapped then 1 else 0)
      ensures var idx := Projection.SegIndexPy(cameraZ, segLength, segMax);
              bgX == Background.NextBgXPy(old(bgX), base[idx].curve, spd, spdMax, BgGain) &&
              bgY == Background.NextBgY(old(bgY), base[idx].pitch, spd, spdMax)
      ensures dt == Scenery.Window(base, Projection.SegIndexPy(cameraZ, segLength, segMax), PyFmod(cameraZ, segTotalLength),
                                   segLength, shiftCamX, roadY, viewDistance)
      ensures angle == old(angle) + spd * 1.0
      ensures forall c :: 0 <= c < Traffic.CarCount ==>
                cars[c] == Traffic.MoveCar(old(cars)[c], cameraZ, angle, sin, roadW, spdMax, segTotalLength)
      ensures var idx := Projection.SegIndexPy(cameraZ, segLength, segMax);
              forall m :: 0 <= m < segMax ==>
                segdata[m] == Scenery.Framed(old(segdata)[m], idx, m, segMax, viewDistance, dt,
                                             Traffic.CarBits(cars, m, segLength, segMax))
    {
      var idx := Advance();
      assert Valid();
      Render(idx, segdata, cars);
    }

    /** The first half of the frame: speed up by `spda` up to `spd_max_m`, move the camera
        (counting a lap on wrap), find the segment under it, and scroll the background by
        its curve and pitch. */
    method Advance() returns (idx: nat)
      requires Valid()
      modifies this`spd, this`cameraZ, this`laps, this`bgX, this`bgY
      ensures SessionOk() && OnCourse()
      ensures spd == Accelerated(old(spd), spda, spdMaxM)
      ensures var (cam, wrapped) := Projection.CameraStep(old(cameraZ), spd, segTotalLength);
              cameraZ == cam && laps == old(laps) + (if wrapped then 1 else 0)
      ensures idx == Projection.SegIndexPy(cameraZ, segLength, segMax) && idx < segMax
      ensures bgX == Background.NextBgXPy(old(bgX), base[idx].curve, spd, spdMax, BgGain) &&
              bgY == Background.NextBgY(old(bgY), base[idx].pitch, spd, spdMax)
    {
      spd := spd + spda;
      if spd >= spdMaxM {
        spd := spdMaxM;
      }
      MoveCamera();
      idx := SegIndex();
      var curve, pitch := segdata[idx].curve, segdata[idx].pitch;
      assert Scenery.Fixed(segdata[idx]) == base[idx];
      UpdateBg(curve, pitch);
    }

    /** The camera step of `update`: `camera_z += spd`; on passing the end of the course,
        the course length is taken off and a lap is counted. */
    method MoveCamera()
      modifies this`cameraZ, this`laps
      ensures var (cam, wrapped) := Projection.CameraStep(old(cameraZ), spd, segTotalLength);
              cameraZ == cam && laps == old(laps) + (if wrapped then 1 else 0)
    {
      cameraZ := cameraZ + spd;
      if cameraZ >= segTotalLength {
        cameraZ := cameraZ - segTotalLength;
        laps := laps + 1;
      }
    }

    /** `idx` of `update`: 0 at `camera_z == 0`, otherwise `int(camera_z / seg_length) % seg_max`. */
    method SegIndex() returns (idx: nat)
      requires segLength > 0.0 && segMax > 0
      ensures idx == Projection.SegIndexPy(cameraZ, segLength, segMax) && idx < segMax
    {
      idx := 0;
      if cameraZ != 0.0 {
        var q := Trunc(cameraZ / segLength) % segMax;
        if q < 0 {
          q := q + segMax;
        }
        idx := q;
      }
    }

    /** `update_bg`: `bg_x` moves with the curve and wraps by Python's `% 1.0`; `bg_y`
        follows the pitch, or drifts back to 0 on flat road, and is clamped to `[-1, 1]`. */
    method UpdateBg(curve: real, pitch: real)
      requires spdMax > 0.0
      modifies this`bgX, this`bgY
      ensures bgX == Background.NextBgXPy(old(bgX), curve, spd, spdMax, BgGain)
      ensures bgY == Background.NextBgY(old(bgY), pitch, spd, spdMax)
    {
      bgX := bgX + curve * (spd / spdMax) * BgGain;
      Background.NextBgXPyAt(old(bgX), curve, spd, spdMax, BgGain, bgX);
      bgX := PyFmod(bgX, 1.0);
      ScrollBgY(pitch);
    }

    /** The `bg_y` half of `update_bg`: it follows the pitch, or drifts back to 0 by
        a tenth of `(spd / spd_max) * 0.025` on flat road, and is clamped to `[-1, 1]`. */
    method ScrollBgY(pitch: real)
      requires spdMax > 0.0
      modifies this`bgY
      ensures bgY == Background.NextBgY(old(bgY), pitch, spd, spdMax)
    {
      var y, s, sm := bgY, spd, spdMax;
      if s > 0.0 {
        if pitch != 0.0 {
          y := y + pitch * (s / sm) * 0.02;
        } else {
          var d := (s / sm) * 0.025;
          if y < 0.0 {
            y := y + d * 0.1;
            if y >= 0.0 {
              y := 0.0;
            }
          }
          if y > 0.0 {
            y := y - d * 0.1;
            if y <= 0.0 {
              y := 0.0;
            }
          }
        }
      }
      if y < -1.0 {
        y := -1.0;
      }
      if y > 1.0 {
        y := 1.0;
      }
      bgY := y;
    }

    /** The second half of the frame, from the segment `idx` under the camera: rebuild the
        window while writing each point back into its segment, then move the cars and mark
        their segments. */
    method Render(idx: nat, ghost s0: seq<Scenery.Segment>, ghost oc: seq<Traffic.Car>)
      requires Valid() && idx == Projection.SegIndexPy(cameraZ, segLength, segMax) && segdata == s0 && cars == oc
      modifies this`angle, this`dt, this`segdata, this`cars
      ensures Laid() && CarsPlaced()
      ensures dt == Scenery.Window(base, idx, PyFmod(cameraZ, segTotalLength), segLength, shiftCamX, roadY, viewDistance)
      ensures angle == old(angle) + spd * 1.0
      ensures forall c :: 0 <= c < Traffic.CarCount ==>
                cars[c] == Traffic.MoveCar(oc[c], cameraZ, angle, sin, roadW, spdMax, segTotalLength)
      ensures forall m :: 0 <= m < segMax ==>
                segdata[m] == Scenery.Framed(s0[m], idx, m, segMax, viewDistance, dt,
                                             Traffic.CarBits(cars, m, segLength, segMax))
    {
      RenderWindow(idx, s0);
      ghost var s1 := segdata;
      UpdateCars(oc, s1);
      assert cars[..Traffic.CarCount] == cars;
      Road04C.FrameStep(s0, s1, segdata, dt, cars, idx, segLength, segMax);
    }

    /** The window half of `Render`: the accumulators start from the camera's offset in
        segment `idx` (`ccz = camera_z % seg_total_length`), and the window loop records
        every point and writes it back over the segments `s0`. */
    method RenderWindow(idx: nat, ghost s0: seq<Scenery.Segment>)
      requires Valid() && idx == Projection.SegIndexPy(cameraZ, segLength, segMax) && segdata == s0
      modifies this`dt, this`segdata
      ensures dt == Scenery.Window(base, idx, PyFmod(cameraZ, segTotalLength), segLength, shiftCamX, roadY, viewDistance)
      ensures |segdata| == |s0| &&
              forall m :: 0 <= m < |s0| ==>
                segdata[m] == if m < segMax && Scenery.Offset(idx, m, segMax) < |dt|
                              then Scenery.WrittenBack(s0[m], dt[Scenery.Offset(idx, m, segMax)])
                              else s0[m]
    {
      var z, curve, pitch := segdata[idx].z, segdata[idx].curve, segdata[idx].pitch;
      assert Scenery.Fixed(segdata[idx]) == base[idx];
      var ccz := PyFmod(cameraZ, segTotalLength);
      var a0 := Projection.Origin(Course.Seg(z, curve, pitch), ccz, segLength);
      assert a0 == Scenery.Origin(base, idx, ccz, segLength);
      RecordWindow(idx, a0, s0, base);
      assert dt == Scenery.Window(base, idx, ccz, segLength, shiftCamX, roadY, viewDistance);
    }

    /** The window loop of `update`: `gw.dt` is emptied; point `k` stands for segment
        `i = (idx + k) % seg_max`, takes its band and billboard, is appended, and is written
        back into the segment (screen position, car flags cleared) before the accumulators
        step over it. */
    method RecordWindow(idx: nat, a0: Projection.Acc, ghost o: seq<Scenery.Segment>, ghost b: seq<Scenery.Segment>)
      requires viewDistance <= segMax == |o| == |b| && segdata == o && idx < segMax
      requires forall m :: 0 <= m < segMax ==> Scenery.Fixed(o[m]) == b[m]
      modifies this`dt, this`segdata
      ensures Recorded(idx, a0, o, b, viewDistance)
    {
      var a := a0;
      dt := [];
      for k := 0 to viewDistance
        invariant Recorded(idx, a0, o, b, k) && a == Projection.AccAt(Scenery.Geometry(b), idx, a0, segLength, k)
      {
        a := RecordStep(idx, k, a, a0, o, b);
      }
    }

    /** `dt` holds the first `k` points of the window from segment `idx`, and the segments
        they visit hold `o`'s segments with those points written back; the others are `o`'s. */
    ghost predicate Recorded(idx: nat, a0: Projection.Acc, o: seq<Scenery.Segment>, b: seq<Scenery.Segment>, k: nat)
      reads this`dt, this`segdata, this`segMax
    {
      k == |dt| && |b| == segMax && idx < segMax && segMax <= |o| == |segdata| &&
      (forall n :: 0 <= n < k ==> dt[n] == Scenery.PointAt(b, idx, a0, segLength, shiftCamX, roadY, n)) &&
      (forall m :: 0 <= m < |o| ==>
         segdata[m] == if m < segMax && Scenery.Offset(idx, m, segMax) < k
                       then Scenery.WrittenBack(o[m], dt[Scenery.Offset(idx, m, segMax)])
                       else o[m])
    }

    /** The window loop from point `k` to point `k + 1`. */
    method RecordStep(idx: nat, k: nat, a: Projection.Acc, ghost a0: Projection.Acc, ghost o: seq<Scenery.Segment>,
                      ghost b: seq<Scenery.Segment>)
      returns (a': Projection.Acc)
      requires k < viewDistance <= segMax == |segdata| == |o| == |b| && idx < segMax
      requires forall m :: 0 <= m < segMax ==> Scenery.Fixed(o[m]) == b[m]
      requires Recorded(idx, a0, o, b, k) && a == Projection.AccAt(Scenery.Geometry(b), idx, a0, segLength, k)
      modifies this`dt, this`segdata
      ensures Recorded(idx, a0, o, b, k + 1) && a' == Projection.AccAt(Scenery.Geometry(b), idx, a0, segLength, k + 1)
    {
      Scenery.OffsetsVisit(idx, segMax);
      ghost var i := Projection.Visit(idx, k, segMax);
      assert Scenery.Offset(idx, i, segMax) == k;
      assert segdata[i] == o[i];
      ghost var s1, d1 := segdata, dt;
      a' := RecordPoint(idx, k, a, a0, b);
      Road04C.WriteBackStep(o, s1, segdata, d1, dt, idx, k, segMax);
    }

    /** One pass of the window loop: point `k`, for segment `i = (idx + k) % seg_max`, is
        appended with the band `15 - i % 16` and the segment's billboard, the segment gets
        the point's screen position and its car flags cleared, and the accumulators `a`
        step over it. */
    method RecordPoint(idx: nat, k: nat, a: Projection.Acc, ghost a0: Projection.Acc, ghost b: seq<Scenery.Segment>)
      returns (a': Projection.Acc)
      requires |dt| == k && idx < segMax == |segdata| == |b|
      requires a == Projection.AccAt(Scenery.Geometry(b), idx, a0, segLength, k)
      requires var i := Projection.Visit(idx, k, segMax); Scenery.Fixed(segdata[i]) == b[i]
      modifies this`dt, this`segdata
      ensures a' == Projection.AccAt(Scenery.Geometry(b), idx, a0, segLength, k + 1)
      ensures |dt| == k + 1 && dt[k] == Scenery.PointAt(b, idx, a0, segLength, shiftCamX, roadY, k)
      ensures forall n :: 0 <= n < k ==> dt[n] == old(dt)[n]
      ensures |segdata| == segMax
      ensures var i := Projection.Visit(idx, k, segMax); segdata[i] == Scenery.WrittenBack(old(segdata)[i], dt[k])
      ensures forall m :: 0 <= m < segMax && m != Projection.Visit(idx, k, segMax) ==> segdata[m] == old(segdata)[m]
    {
      var cx, cy, cz, xd, yd := a.x, a.y, a.z, a.xd, a.yd;
      var i := (idx + k) % segMax;
      var d := segdata[i];
      var attr := (16 - 1) - i % 16;
      var x := cx + shiftCamX;
      var y := cy + roadY;
      dt := dt + [Scenery.Dt(x, y, cz, attr, i, d.spr)];
      segdata := segdata[i := d.(x := x, y := y, cars := 0)];
      cx := cx + xd;
      cy := cy + yd;
      cz := cz + segLength;
      xd := xd + segdata[i].curve;
      yd := yd + segdata[i].pitch;
      a' := Projection.Acc(cx, cy, cz, xd, yd);
    }

    /** The `if kind == ...` chain of `update_cars` for car `c`: its new position and
        sprite for the frame, with `angle` already advanced. */
    method MoveCarAt(c: nat)
      requires c < |cars| && segTotalLength > 0.0
      modifies this`cars
      ensures |cars| == |old(cars)|
      ensures cars[c] == Traffic.MoveCar(old(cars)[c], cameraZ, angle, sin, roadW, spdMax, segTotalLength)
      ensures forall n :: 0 <= n < |cars| && n != c ==> cars[n] == old(cars)[n]
    {
      var car := cars[c];
      var kind := car.kind;
      var x, z, sprKind := car.x, car.z, car.sprKind;
      match kind {
        case 0 =>
          var d := 170.0;
          var rx := roadW * 0.5;
          sprKind := Billboard.SprScooter;
          x := -rx * 1.35 + (rx * 0.25) * sin(0.035 * Traffic.Deg2Rad(angle));
          z := cameraZ + d + 20.0 * sin(0.1 * Traffic.Deg2Rad(angle));
        case 1 =>
          var d := 300.0;
          sprKind := Billboard.SprCar0;
          x := -roadW * 0.25;
          z := cameraZ + d + 150.0 * sin(0.02 * Traffic.Deg2Rad(angle));
        case 2 =>
          sprKind := Billboard.SprCar0 + 1;
          x := roadW * 0.25;
          z := z - spdMax * 0.25;
          if z < 0.0 {
            z := z + segTotalLength;
          }
        case 3 =>
          sprKind := Billboard.SprCar0 + 2;
          x := roadW * 0.7;
          z := z - spdMax * 0.2;
          if z < 0.0 {
            z := z + segTotalLength;
          }
        case _ =>
      }
      cars := cars[c := Traffic.Car(kind, x, 0.0, z, sprKind)];
    }

    /** The flag step of `update_cars` for car `c`: its bit `1 << kind` is ORed into the
        draw flags of the segment `int(z / seg_length) % seg_max` it is on. */
    method FlagCar(c: nat)
      requires c < |cars| && 0 <= cars[c].kind < 4
      requires segLength > 0.0 && 0 < segMax <= |segdata|
      modifies this`segdata
      ensures |segdata| == |old(segdata)|
      ensures forall m :: 0 <= m < |segdata| ==>
                segdata[m] == if m == Traffic.CarSegment(cars[c], segLength, segMax)
                              then old(segdata)[m].(cars := old(segdata)[m].cars | Traffic.Bit(cars[c].kind))
                              else old(segdata)[m]
    {
      var kind := cars[c].kind;
      var i := Trunc(cars[c].z / segLength) % segMax;
      if i < 0 {
        i := i + segMax;
      }
      Projection.WrapIndexAgree(cars[c].z, segLength, segMax);
      assert i == Traffic.CarSegment(cars[c], segLength, segMax);
      segdata := segdata[i := segdata[i].(cars := segdata[i].cars | Traffic.Bit(kind))];
    }

    /** `update_cars`: `angle += spd`; every car moves, then ORs its bit `1 << kind` into
        the draw flags of the segment it is on. `oc` and `os` are the cars and segments
        before the call. */
    method UpdateCars(ghost oc: seq<Traffic.Car>, ghost os: seq<Scenery.Segment>)
      requires segLength == 20.0 && 0 < segMax == |segdata| && segTotalLength > 0.0
      requires cars == oc && segdata == os
      requires |cars| == Traffic.CarCount && forall c :: 0 <= c < Traffic.CarCount ==> cars[c].kind == c
      modifies this`angle, this`cars, this`segdata
      ensures angle == old(angle) + spd * 1.0
      ensures CarsMoved(oc, os, Traffic.CarCount)
    {
      angle := angle + spd * 1.0;
      assert Traffic.Flaggable(cars[..0]);
      for c := 0 to Traffic.CarCount
        invariant angle == old(angle) + spd * 1.0 && CarsMoved(oc, os, c)
      {
        CarStep(c, oc, os);
      }
    }

    /** The first `c` cars of `oc` have moved and the rest have not, and the segments are
        those of `os` with the moved cars' bits ORed in. */
    ghost predicate CarsMoved(oc: seq<Traffic.Car>, os: seq<Scenery.Segment>, c: nat)
      reads this`cars, this`segdata, this`segMax, this`segTotalLength, this`cameraZ, this`angle
    {
      segLength == 20.0 && 0 < segMax <= |segdata| == |os| && segTotalLength > 0.0 &&
      c <= |cars| == |oc| == Traffic.CarCount &&
      (forall n :: 0 <= n < Traffic.CarCount ==> oc[n].kind == n) &&
      (forall n :: 0 <= n < c ==> cars[n] == Traffic.MoveCar(oc[n], cameraZ, angle, sin, roadW, spdMax, segTotalLength)) &&
      (forall n :: c <= n < |cars| ==> cars[n] == oc[n]) &&
      Traffic.Flaggable(cars[..c]) &&
      (forall m :: 0 <= m < |os| ==>
         segdata[m] == if m < segMax
                       then os[m].(cars := os[m].cars | Traffic.CarBits(cars[..c], m, segLength, segMax))
                       else os[m])
    }

    /** One pass of the car loop of `update_cars`: car `c` moves and marks its segment. */
    method CarStep(c: nat, ghost oc: seq<Traffic.Car>, ghost os: seq<Scenery.Segment>)
      requires c < Traffic.CarCount && CarsMoved(oc, os, c)
      modifies this`cars, this`segdata
      ensures segLength == 20.0 && 0 < segMax <= |segdata| == |os| && segTotalLength > 0.0
      ensures c + 1 <= |cars| == |oc| == Traffic.CarCount
      ensures forall n :: 0 <= n < Traffic.CarCount ==> oc[n].kind == n
      ensures forall n :: 0 <= n < c + 1 ==> cars[n] == Traffic.MoveCar(oc[n], cameraZ, angle, sin, roadW, spdMax, segTotalLength)
      ensures forall n :: c + 1 <= n < |cars| ==> cars[n] == oc[n]
      ensures Traffic.Flaggable(cars[..c + 1])
      ensures forall m :: 0 <= m < |os| ==>
                segdata[m] == if m < segMax
                              then os[m].(cars := os[m].cars | Traffic.CarBits(cars[..c + 1], m, segLength, segMax))
                              else os[m]
    {
      ghost var before := cars[..c];
      MoveCarAt(c);
      assert cars[..c] == before;
      assert cars[c] == Traffic.MoveCar(oc[c], cameraZ, angle, sin, roadW, spdMax, segTotalLength);
      assert cars[c].kind == c;
      assert Traffic.Flaggable(cars[..c + 1]);
      ghost var s1 := segdata;
      FlagCar(c);
      assert cars[..c + 1][..c] == cars[..c];
      Road04C.FlagStep(os, s1, segdata, cars[..c + 1], segLength, segMax);
    }
  }
}
