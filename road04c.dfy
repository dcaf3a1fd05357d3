/** `04_ps3d_bb.c`: the road with billboards, cars and a session cycle. `init_work_first`
    is the constructor; every `update` runs one step of the session machine (step 0
    re-creates a random course with `init_work`), then moves the camera, scrolls the
    background, records the window and writes each window point back into its segment,
    and finally moves the cars and marks their segments. `rand()` after `srand` is the
    stream `rand` read at the cursor `randPos`; `sin` is a parameter. */
module Road04C {
  import opened Numeric
  import Course
  import Projection
  import Billboard
  import CourseGen
  import Scenery
  import Session
  import Background
  import Traffic

  /** `VIEW_DIST`. */
  const ViewDist := 200
  /** `SEGSRC_MAX_LIMIT`. */
  const SrcMaxLimit := 100
  /** `SEG_MAX_LIMIT`. */
  const SegMaxLimit := 30000

  /** `update_bg_pos` scrolls `bg_x` by `curve * (spd / spd_max) * 0.01`. */
  const BgGain: real := 0.01

  /** One car of `update_cars`: if the flags of `s1` are those of `o` with the bits of all
      cars but the last ORed in, and `s2` is `s1` with the last car's bit ORed into the
      segment it is on, then the flags of `s2` are those of `o` with the bits of all cars. */
  lemma FlagStep(o: seq<Scenery.Segment>, s1: seq<Scenery.Segment>, s2: seq<Scenery.Segment>,
                 cars: seq<Traffic.Car>, segLength: real, segMax: nat)
    requires segLength > 0.0 && 0 < segMax <= |o| && |s1| == |o| && |s2| == |o|
    requires |cars| > 0 && Traffic.Flaggable(cars)
    requires forall m :: 0 <= m < |o| ==>
               s1[m] == if m < segMax
                        then o[m].(cars := o[m].cars | Traffic.CarBits(cars[..|cars| - 1], m, segLength, segMax))
                        else o[m]
    requires var c := cars[|cars| - 1];
             forall m :: 0 <= m < |o| ==>
               s2[m] == if m == Traffic.CarSegment(c, segLength, segMax)
                        then s1[m].(cars := s1[m].cars | Traffic.Bit(c.kind))
                        else s1[m]
    ensures forall m :: 0 <= m < |o| ==>
              s2[m] == if m < segMax
                       then o[m].(cars := o[m].cars | Traffic.CarBits(cars, m, segLength, segMax))
                       else o[m]
  {
    var c := cars[|cars| - 1];
    forall m | 0 <= m < |o|
      ensures s2[m] == if m < segMax
                       then o[m].(cars := o[m].cars | Traffic.CarBits(cars, m, segLength, segMax))
                       else o[m]
    {
      if m < segMax {
        var b: bv8 := if Traffic.CarSegment(c, segLength, segMax) == m then Traffic.Bit(c.kind) else 0;
        var pre := Traffic.CarBits(cars[..|cars| - 1], m, segLength, segMax);
        assert Traffic.CarBits(cars, m, segLength, segMax) == pre | b;
        assert s2[m] == s1[m].(cars := s1[m].cars | b);
        assert (o[m].cars | pre) | b == o[m].cars | (pre | b);
      }
    }
  }

  /** One point of the window loop: if the segments of `s1` are those of `o` with the points
      before `k` written back, and `s2` is `s1` with point `k` written into the segment it
      visits, then the segments of `s2` are those of `o` with the points up to `k` written
      back. */
  lemma WriteBackStep(o: seq<Scenery.Segment>, s1: seq<Scenery.Segment>, s2: seq<Scenery.Segment>,
                      d1: seq<Scenery.Dt>, d2: seq<Scenery.Dt>, idx: nat, k: nat, segMax: nat)
    requires idx < segMax <= |o| && |s1| == |o| && |s2| == |o| && k <= |d1| && k < |d2| <= segMax
    requires forall n :: 0 <= n < k ==> d2[n] == d1[n]
    requires forall m :: 0 <= m < |o| ==>
               s1[m] == if m < segMax && Scenery.Offset(idx, m, segMax) < k
                        then Scenery.WrittenBack(o[m], d1[Scenery.Offset(idx, m, segMax)])
                        else o[m]
    requires var i := Projection.Visit(idx, k, segMax);
             s2[i] == Scenery.WrittenBack(s1[i], d2[k]) &&
             forall m :: 0 <= m < |o| && m != i ==> s2[m] == s1[m]
    ensures forall m :: 0 <= m < |o| ==>
              s2[m] == if m < segMax && Scenery.Offset(idx, m, segMax) < k + 1
                       then Scenery.WrittenBack(o[m], d2[Scenery.Offset(idx, m, segMax)])
                       else o[m]
  {
    Scenery.OffsetsVisit(idx, segMax);
  }

  /** The two writes of a frame compose: if `s1` is `s0` with the window written back and
      `s2` is `s1` with the car bits ORed in, then `s2` is `s0` framed. */
  lemma FrameStep(s0: seq<Scenery.Segment>, s1: seq<Scenery.Segment>, s2: seq<Scenery.Segment>,
                  d: seq<Scenery.Dt>, cars: seq<Traffic.Car>, idx: nat, segLength: real, segMax: nat)
    requires segLength > 0.0 && idx < segMax <= |s0| && |s1| == |s0| && |s2| == |s0| && Traffic.Flaggable(cars)
    requires forall m :: 0 <= m < |s0| ==>
               s1[m] == if m < segMax && Scenery.Offset(idx, m, segMax) < |d|
                        then Scenery.WrittenBack(s0[m], d[Scenery.Offset(idx, m, segMax)])
                        else s0[m]
    requires forall m :: 0 <= m < |s0| ==>
               s2[m] == if m < segMax
                        then s1[m].(cars := s1[m].cars | Traffic.CarBits(cars, m, segLength, segMax))
                        else s1[m]
    ensures forall m :: 0 <= m < segMax ==>
              s2[m] == Scenery.Framed(s0[m], idx, m, segMax, |d|, d, Traffic.CarBits(cars, m, segLength, segMax))
    ensures forall m :: 0 <= m < |s0| ==> Scenery.Fixed(s2[m]) == Scenery.Fixed(s0[m])
  {
  }

  class Gwk {
    /** The numbers `rand()` returns after `srand`, in order. */
    const rand: nat -> nat
    const sin: real -> real
    /** How many numbers `rand()` has returned so far. */
    var randPos: nat

    const framerate: real
    const segLength: real
    const roadY: real
    const roadW: real
    const shiftCamX: real
    const spdMax: real
    const spdMaxM: real
    const spda: real
    const lapsLimit: int

    var step: int
    var fadev: real
    var laps: int
    var cameraZ: real
    var spd: real
    var bgX: real
    var bgY: real
    var angle: real

    var srcLen: nat
    var segMax: nat
    var segTotalLength: real
    const segdataSrc: array<CourseGen.SegSrc>
    const segdata: array<Scenery.Segment>
    const dt: array<Scenery.Dt>
    const cars: array<Traffic.Car>

    /** The run table `init_course_random` drew. */
    ghost var course: seq<CourseGen.SegSrc>
    /** Where the random cursor stood once the run table was drawn. */
    ghost var coursePos: nat
    /** The course as `expand_segdata` wrote it; frames rewrite only `x`, `y` and `cars`. */
    ghost var base: seq<Scenery.Segment>

    /** What `init_work_first` sets, as values: `seg_length = 20`, `road_w = 300`,
        `shift_cam_x = road_w * 0.45`, `spd_max = seg_length * 0.8`, `spd_max_m = spd_max * 0.35`,
        `spda = spd_max / (framerate * 3)`; and the static array sizes. */
    ghost predicate Consts()
    {
      framerate == 60.0 && segLength == 20.0 && roadY == -100.0 && roadW == 300.0 &&
      shiftCamX == 135.0 && spdMax == 16.0 && spdMaxM == 5.6 && spda == 16.0 / 180.0 && lapsLimit == 2 &&
      segdataSrc.Length == SrcMaxLimit && segdata.Length == SegMaxLimit &&
      dt.Length == ViewDist && cars.Length == Traffic.CarCount
    }

    /** The session machine is at one of its four steps, the fade level is in `[0, 1]`,
        and the speed is the fixed cruising speed `spd_max_m`. */
    ghost predicate SessionOk()
      reads this`step, this`fadev, this`spd
    {
      0 <= step <= 3 && 0.0 <= fadev <= 1.0 && spd == spdMaxM
    }

    /** The run table is `course`, `seg_max` counts its segments (at least a window's worth),
        `seg_total_length = seg_length * seg_max` with `seg_length = 20`, and `base` is evenly
        spaced by `seg_length`. */
    ghost predicate CourseShape()
      reads this`srcLen, this`course, this`segMax, this`segTotalLength, this`base, segdataSrc
    {
      srcLen <= segdataSrc.Length && course == segdataSrc[..srcLen] &&
      segMax == Scenery.SegTotal(course) && ViewDist <= segMax <= segdata.Length &&
      segTotalLength == 20.0 * segMax as real && |base| == segMax &&
      (forall m :: 0 <= m < segMax ==> base[m].z == m as real * 20.0)
    }

    /** `segdata` holds `base` up to the frame-written fields `x`, `y` and `cars`. */
    ghost predicate Laid()
      reads this`segMax, this`base, segdata
    {
      segMax <= segdata.Length && |base| == segMax &&
      forall m :: 0 <= m < segMax ==> Scenery.Fixed(segdata[m]) == base[m]
    }

    /** The course is drawn and laid out in `segdata`. */
    ghost predicate CourseReady()
      reads this`srcLen, this`course, this`segMax, this`segTotalLength, this`base, segdataSrc, segdata
    {
      CourseShape() && Laid()
    }

    /** The camera is on the course and the background offsets are in range. */
    ghost predicate OnCourse()
      reads this`cameraZ, this`segTotalLength, this`bgX, this`bgY
    {
      0.0 <= cameraZ < segTotalLength && -1.0 < bgX < 1.0 && -1.0 <= bgY <= 1.0
    }

    /** Car `i` has kind `i`, and the two cars that run along the course are on it. */
    ghost predicate CarsPlaced()
      reads this`segTotalLength, cars
    {
      cars.Length == Traffic.CarCount && (forall c :: 0 <= c < Traffic.CarCount ==> cars[c].kind == c) &&
      0.0 <= cars[2].z < segTotalLength && 0.0 <= cars[3].z < segTotalLength
    }

    /** A course is in place: the constants, the session, the course, the camera and the
        cars are as above. */
    ghost predicate Valid()
      reads this, segdataSrc, segdata, cars
    {
      Consts() && SessionOk() && CourseReady() && OnCourse() && CarsPlaced()
    }

    /** `init_work_first`: the constants; the rest of `gw` is static storage, zero. */
    constructor (rand: nat -> nat, sin: real -> real)
      ensures Consts() && step == 0 && randPos == 0
      ensures this.rand == rand && this.sin == sin
    {
      this.rand := rand;
      this.sin := sin;
      randPos := 0;
      framerate := 60.0;
      segLength := 20.0;
      roadY := -100.0;
      roadW := 300.0;
      shiftCamX := 300.0 * 0.45;
      spdMax := 20.0 * 0.8;
      spdMaxM := (20.0 * 0.8) * 0.35;
      spda := (20.0 * 0.8) / (60.0 * 3.0);
      lapsLimit := 2;
      step := 0;
      segdataSrc := new CourseGen.SegSrc[SrcMaxLimit](_ => CourseGen.NoRun);
      segdata := new Scenery.Segment[SegMaxLimit](_ => Scenery.Segment(0.0, 0.0, 0.0, 0.0, 0.0, Billboard.Blank, 0));
      dt := new Scenery.Dt[ViewDist](_ => Scenery.Dt(0.0, 0.0, 0.0, 0, 0, Billboard.Blank));
      cars := new Traffic.Car[Traffic.CarCount](_ => Traffic.Car(0, 0.0, 0.0, 0.0, 0));
    }

    /** `init_work`: the session, camera, background and sway phase start from zero, the
        cars are placed, a random course is drawn, counted and expanded. */
    method InitWork()
      requires Consts()
      modifies this`step, this`cameraZ, this`spd, this`laps, this`fadev, this`bgX, this`bgY, this`angle
      modifies this`randPos, this`srcLen, this`segMax, this`segTotalLength, this`course, this`coursePos, this`base
      modifies cars, segdataSrc, segdata
      ensures Valid()
      ensures step == 0 && fadev == 0.0 && laps == 0 && cameraZ == 0.0 && bgX == 0.0 && bgY == 0.0 && angle == 0.0
      ensures cars[..] == Traffic.InitialCars()
      ensures (course, coursePos) == CourseGen.GenC(rand, old(randPos))
      ensures base == Scenery.Expanded(rand, coursePos, course, segLength)
      ensures forall m :: 0 <= m < segMax ==> segdata[m] == base[m]
      ensures randPos == coursePos + Scenery.CourseDraws(course, |course|)
    {
      ResetScalars();
      InitCars();
      InitCourse();
      assert segTotalLength >= 4000.0;
    }

    /** The scalar part of `init_work`: session, camera, speed, background and sway phase. */
    method ResetScalars()
      modifies this`step, this`cameraZ, this`spd, this`laps, this`fadev, this`bgX, this`bgY, this`angle
      ensures step == 0 && fadev == 0.0 && laps == 0 && cameraZ == 0.0 && bgX == 0.0 && bgY == 0.0 && angle == 0.0
      ensures spd == spdMaxM
    {
      step := 0;
      cameraZ := 0.0;
      spd := spdMaxM;
      laps := 0;
      fadev := 0.0;
      bgX := 0.0;
      bgY := 0.0;
      angle := 0.0;
    }

    /** The course part of `init_work`: `init_course_random`, the count loop, and
        `expand_segdata`. */
    method InitCourse()
      requires Consts()
      modifies this`randPos, this`srcLen, this`segMax, this`segTotalLength, this`course, this`coursePos, this`base
      modifies segdataSrc, segdata
      ensures srcLen <= segdataSrc.Length && CourseReady()
      ensures (course, coursePos) == CourseGen.GenC(rand, old(randPos))
      ensures base == Scenery.Expanded(rand, coursePos, course, segLength)
      ensures forall m :: 0 <= m < segMax ==> segdata[m] == base[m]
      ensures randPos == coursePos + Scenery.CourseDraws(course, |course|)
    {
      DrawCourse();
      ghost var want := ExpandSegdata();
      Scenery.ExpandedFixed(rand, coursePos, course, segLength, want);
      SetBase(want);
    }

    /** `base` records the expanded course `want` that `segdata` now holds. */
    ghost method SetBase(want: seq<Scenery.Segment>)
      requires srcLen <= segdataSrc.Length && course == segdataSrc[..srcLen]
      requires segMax == Scenery.SegTotal(course) && ViewDist <= segMax <= segdata.Length
      requires segTotalLength == 20.0 * segMax as real && |want| == segMax
      requires forall m :: 0 <= m < |want| ==> segdata[m] == want[m]
      requires forall m :: 0 <= m < |want| ==> want[m].z == m as real * 20.0 && Scenery.Fixed(want[m]) == want[m]
      modifies this`base
      ensures srcLen <= segdataSrc.Length && CourseReady() && base == want
      ensures forall m :: 0 <= m < segMax ==> segdata[m] == base[m]
    {
      base := want;
    }

    /** `init_course_random` followed by the count loop of `init_work`. */
    method DrawCourse()
      requires Consts()
      modifies this`randPos, this`srcLen, this`segMax, this`segTotalLength, this`course, this`coursePos, segdataSrc
      ensures srcLen <= segdataSrc.Length && course == segdataSrc[..srcLen]
      ensures (course, coursePos) == CourseGen.GenC(rand, old(randPos)) && randPos == coursePos
      ensures segMax == Scenery.SegTotal(course) && ViewDist <= segMax <= segdata.Length
      ensures segTotalLength == 20.0 * segMax as real
    {
      ghost var pos0 := randPos;
      InitCourseRandom();
      course := segdataSrc[..srcLen];
      coursePos := randPos;
      CourseGen.GenCSegCount(rand, pos0);
      CountSegMax();
    }

    /** The car loop of `init_work`: car `i` gets kind `i`, position 0 and sprite 9. */
    method InitCars()
      requires cars.Length == Traffic.CarCount
      modifies cars
      ensures cars[..] == Traffic.InitialCars()
    {
      for i := 0 to Traffic.CarCount
        invariant forall n :: 0 <= n < i ==> cars[n] == Traffic.InitialCars()[n]
      {
        cars[i] := Traffic.Car(i, 0.0, 0.0, 0.0, 9);
      }
    }

    /** The count loop of `init_work`: `seg_max` is the sum of the run counts, and
        `seg_total_length = seg_length * seg_max`. */
    method CountSegMax()
      requires srcLen <= segdataSrc.Length
      modifies this`segMax, this`segTotalLength
      ensures segMax == Scenery.SegTotal(segdataSrc[..srcLen])
      ensures segTotalLength == segLength * segMax as real
    {
      ghost var runs := CourseGen.Shapes(segdataSrc[..srcLen]);
      segMax := 0;
      for i := 0 to srcLen
        invariant segMax == Course.Start(runs, i)
      {
        Course.StartNext(runs, i);
        segMax := segMax + segdataSrc[i].cnt;
      }
      assert runs[..|runs|] == runs;
      segTotalLength := segLength * segMax as real;
    }

    /** `rand() % n`. */
    method Rand(n: nat) returns (r: nat)
      requires n > 0
      modifies this`randPos
      ensures r == Billboard.Roll(rand, old(randPos), n) && randPos == old(randPos) + 1
    {
      r := rand(randPos) % n;
      randPos := randPos + 1;
    }

    /** The tree fragment of `set_billboard`: kind, distance `base + rand() % spread`, a
        coin for the side, and scale. */
    method RandomTree(base: real, spread: nat) returns (spr: Billboard.Placement)
      requires spread > 0 && base >= 0.0
      modifies this`randPos
      ensures (spr, randPos) == Billboard.RandomTree(rand, old(randPos), base, spread)
    {
      var r := Rand(4);
      var kind := Billboard.SprTree0 + r;
      r := Rand(spread);
      var x := r as real + base;
      r := Rand(2);
      if r == 0 {
        x := x * -1.0;
      }
      r := Rand(100);
      spr := Billboard.Placement(kind, x, (100 + r) as real * 0.01);
    }

    /** The tree fragment of the slope zones: no side coin, placed left when `negate`. */
    method SlopeTree(negate: bool) returns (spr: Billboard.Placement)
      requires roadW == Billboard.RoadW
      modifies this`randPos
      ensures (spr, randPos) == Billboard.SlopeTree(rand, old(randPos), negate)
    {
      var r := Rand(4);
      var kind := Billboard.SprTree0 + r;
      r := Rand(600);
      var x := r as real + roadW + 300.0;
      if negate {
        x := -x;
      }
      r := Rand(100);
      spr := Billboard.Placement(kind, x, (100 + r) as real * 0.01);
    }

    /** `set_billboard(bbkind, j, ...)`: the sprite of sub-index `j` of a run of zone `bb`. */
    method SetBillboard(bb: Billboard.Zone, j: nat) returns (spr: Billboard.Placement)
      requires roadW == Billboard.RoadW
      modifies this`randPos
      ensures (spr, randPos) == Billboard.SetBillboard(rand, old(randPos), bb, j)
    {
      var kind, x, scale := 0, 0.0, 1.0;
      if bb == Billboard.None {
        return Billboard.Placement(kind, x, scale);
      }
      match bb {
        case Tree =>
          spr := RandomTree(roadW + 100.0, 400);
          return;
        case ArrowR | ArrowL =>
          if j % 4 == 0 {
            kind := Billboard.ArrowSprite(bb);
            x := roadW + 120.0;
          } else {
            kind := Billboard.SprGrass;
            var r := Rand(50);
            x := r as real + roadW + 120.0;
          }
          if bb == Billboard.ArrowL {
            x := x * -1.0;
          }
          scale := 1.0;
        case Grass =>
          kind := Billboard.SprGrass;
          var r := Rand(200);
          x := r as real + roadW + 200.0;
          r := Rand(2);
          if r == 0 {
            x := x * -1.0;
          }
          r := Rand(50);
          scale := (150 + r) as real * 0.01;
        case Beam =>
          kind, x, scale := 0, 0.0, 1.0;
          if j % 7 == 0 {
            kind := Billboard.SprBeam;
          }
        case House =>
          if j % 12 == 4 {
            var r := Rand(100);
            x := -(roadW + 400.0 + r as real);
            scale := 1.0;
            r := Rand(2);
            if r == 0 {
              kind := Billboard.SprHouse0L;
            } else {
              kind := Billboard.SprHouse0R;
              x := x * -1.0;
            }
            r := Rand(3);
            kind := kind + r * 2;
          } else if j % 2 == 0 {
            spr := RandomTree(roadW + 300.0, 600);
            return;
          } else {
            kind := Billboard.SprNone;
          }
        case SlopeL =>
          scale := 1.0;
          if j == 0 {
            kind := Billboard.SprWall;
            x := -(roadW * 6.0);
          } else if j % 2 == 0 {
            kind := Billboard.SprSlopeL;
            x := -(roadW * 1.5);
          } else {
            spr := SlopeTree(false);
            return;
          }
        case SlopeR =>
          scale := 1.0;
          if j == 0 {
            kind := Billboard.SprWall;
            x := roadW * 6.0;
          } else if j % 2 == 0 {
            kind := Billboard.SprSlopeR;
            x := roadW * 1.5;
          } else {
            spr := SlopeTree(true);
            return;
          }
        case None =>
      }
      spr := Billboard.Placement(kind, x, scale);
    }

    /** `r = rand() % 100; if (r <= 60) { v = (float)(rand() % n) * 0.01; if (r >= 30) v *= -1.0; }`,
        the draw of a curve (`n = 300`) or a pitch (`n = 40`). */
    method SignedDraw(n: nat) returns (v: real)
      requires n > 0
      modifies this`randPos
      ensures (v, randPos) == CourseGen.SignedDraw(rand, old(randPos), n)
    {
      v := 0.0;
      var r := Rand(100);
      if r <= 60 {
        var m := Rand(n);
        v := m as real * 0.01;
        if r >= 30 {
          v := v * -1.0;
        }
      }
    }

    /** The `bb_set_tbl` loop: the first row whose `per` is at least `r` gives the zone
        and the count `min + rand() % rnd`. */
    method PickZone(r: int) returns (bbkind: Billboard.Zone, count: nat)
      modifies this`randPos
      ensures (bbkind, count, randPos) == CourseGen.PickZone(rand, old(randPos), CourseGen.TableC, r, 0)
    {
      CourseGen.TablesWellFormed();
      count := 10;
      bbkind := Billboard.None;
      var tbl := CourseGen.TableC;
      ghost var p := randPos;
      for ti := 0 to |tbl|
        invariant randPos == p && count == 10 && bbkind == Billboard.None
        invariant CourseGen.PickZone(rand, p, tbl, r, ti) == CourseGen.PickZone(rand, p, tbl, r, 0)
      {
        if r <= tbl[ti].per {
          bbkind := tbl[ti].kind;
          var v := Rand(tbl[ti].rnd);
          count := tbl[ti].min + v;
          break;
        }
      }
    }

    /** The drawing part of one iteration of `init_course_random`: curve and pitch, zone
        and count from `bb_set_tbl`, and the halving on slope zones. */
    method DrawRun() returns (d: CourseGen.SegSrc)
      modifies this`randPos
      ensures (d, randPos) == CourseGen.Draft(rand, old(randPos), CourseGen.TableC)
    {
      CourseGen.TablesWellFormed();
      ghost var p0 := randPos;
      var curve := SignedDraw(300);
      ghost var c0, p1 := curve, randPos;
      var pitch := SignedDraw(40);
      ghost var t0, p2 := pitch, randPos;
      var r := Rand(100);
      var bbkind, count := PickZone(r);
      if bbkind == Billboard.SlopeL || bbkind == Billboard.SlopeR {
        if curve < -2.0 || curve > 2.0 {
          curve := curve * 0.5;
        }
        if pitch < -0.5 || pitch > 0.5 {
          pitch := pitch * 0.5;
        }
      }
      CourseGen.DraftOf(rand, p0, CourseGen.TableC, c0, p1, t0, p2, bbkind, count, randPos, curve, pitch);
      d := CourseGen.SegSrc(count, curve, pitch, bbkind);
    }

    /** The body of the `init_course_random` loop at index `j`: the run written at `segp`,
        what is left pending, and whether the loop breaks after it. */
    method NextRun(len: nat, j: nat, next: CourseGen.SegSrc, ghost acc: seq<CourseGen.SegSrc>)
      returns (run: CourseGen.SegSrc, next': CourseGen.SegSrc, stop: bool)
      requires 3 <= len && j < len
      modifies this`randPos
      ensures stop <==> j == len - 1
      ensures stop ==> CourseGen.GenLoopC(rand, len, j, acc, next, old(randPos)) == (acc + [run], randPos)
      ensures !stop ==> CourseGen.GenLoopC(rand, len, j, acc, next, old(randPos)) ==
                        CourseGen.GenLoopC(rand, len, j + 1, acc + [run], next', randPos)
    {
      stop := false;
      next' := next;
      if j == 0 {
        run := CourseGen.RunStart;
      } else if j == 1 {
        run := CourseGen.RunBeam;
      } else if j >= len - 1 {
        run := CourseGen.RunFinish;
        stop := true;
      } else if next.cnt > 0 {
        run := next;
        next' := CourseGen.NoRun;
      } else {
        ghost var p := randPos;
        assert CourseGen.GenLoopC(rand, len, j, acc, next, p) == CourseGen.GenDrawC(rand, len, j, acc, p);
        var d := DrawRun();
        if j < len - 2 && (d.curve > 1.0 || d.curve < -1.0) {
          next' := d;
          run := CourseGen.SegSrc(20, 0.0, 0.0, if d.curve > 1.0 then Billboard.ArrowL else Billboard.ArrowR);
        } else {
          run := d;
        }
      }
    }

    /** `init_course_random`: `20 + rand() % 25` runs; a start run, a beam run, drawn runs
        (a sharp one deferred behind its arrow run) and a finish run. */
    method InitCourseRandom()
      requires segdataSrc.Length == SrcMaxLimit
      modifies this`randPos, this`srcLen, segdataSrc
      ensures srcLen <= segdataSrc.Length
      ensures (segdataSrc[..srcLen], randPos) == CourseGen.GenC(rand, old(randPos))
    {
      ghost var pos0 := randPos;
      var len := Rand(25);
      len := 20 + len;
      srcLen := len;
      assert len == CourseGen.CourseLen(rand, pos0);
      var next := CourseGen.NoRun;
      ghost var acc: seq<CourseGen.SegSrc> := [];
      var w := 0;
      for j := 0 to len
        invariant srcLen == len && w == j == |acc| <= len && segdataSrc[..w] == acc
        invariant CourseGen.GenLoopC(rand, len, j, acc, next, randPos) == CourseGen.GenC(rand, pos0)
      {
        var run, next', stop := NextRun(len, j, next, acc);
        segdataSrc[w] := run;
        assert segdataSrc[..w + 1] == acc + [run];
        acc := acc + [run];
        w := w + 1;
        next := next';
        if stop {
          break;
        }
      }
      assert w == len;
    }

    /** One pass of the inner loop of `expand_segdata`: segment `j` of run `i` is written
        at `segp = &segdata[k]`, blended toward run `(i + 1) % len` with pitch negated,
        with its billboard drawn by `set_billboard`. */
    method WriteSegment(i: nat, j: nat, k: nat, z: real, ghost src: seq<CourseGen.SegSrc>, ghost pos0: nat)
      requires roadW == Billboard.RoadW && segLength == 20.0 && srcLen <= segdataSrc.Length && srcLen == |src|
      requires i < srcLen && segdataSrc[i] == src[i] && segdataSrc[(i + 1) % srcLen] == src[(i + 1) % srcLen]
      requires j < src[i].cnt && k < Scenery.SegTotal(src) && k < segdata.Length
      requires k == Course.Start(CourseGen.Shapes(src), i) + j && z == k as real * 20.0
      requires randPos == pos0 + Scenery.CourseDraws(src, i) + Billboard.RunDraws(src[i].bb, j)
      modifies segdata, this`randPos
      ensures segdata[k] == Scenery.SegmentAt(rand, pos0, src, segLength, k)
      ensures randPos == pos0 + Scenery.CourseDraws(src, i) + Billboard.RunDraws(src[i].bb, j + 1)
      ensures forall m :: 0 <= m < segdata.Length && m != k ==> segdata[m] == old(segdata[m])
    {
      var i2 := (i + 1) % srcLen;
      var cnt, curve, pitch, bbkind := segdataSrc[i].cnt, segdataSrc[i].curve, -segdataSrc[i].pitch, segdataSrc[i].bb;
      var nextCurve, nextPitch := segdataSrc[i2].curve, -segdataSrc[i2].pitch;
      var ratio := j as real / cnt as real;
      var c := Lerp(curve, nextCurve, ratio);
      var p := Lerp(pitch, nextPitch, ratio);
      ghost var cur := randPos;
      var spr := SetBillboard(bbkind, j);
      assert cur == pos0 + Scenery.CourseDraws(src, i) + Billboard.RunDraws(src[i].bb, j);
      assert bbkind == src[i].bb;
      assert spr == Billboard.SetBillboard(rand, cur, src[i].bb, j).0;
      assert nextCurve == src[(i + 1) % |src|].curve && nextPitch == -src[(i + 1) % |src|].pitch;
      assert cnt == src[i].cnt && curve == src[i].curve && pitch == -src[i].pitch;
      Scenery.SegmentAtIs(rand, pos0, src, segLength, i, j, k, z, c, p, cur, spr);
      segdata[k] := Scenery.Segment(z, 0.0, 0.0, c, p, spr, 0);
    }

    /** The inner loop of `expand_segdata` for run `i`: its `cnt` segments are written from
        `segp = &segdata[k]` on, `z` stepping by `seg_length`. */
    method ExpandRun(i: nat, k0: nat, z0: real, ghost src: seq<CourseGen.SegSrc>, ghost pos0: nat)
      returns (k: nat, z: real)
      requires roadW == Billboard.RoadW && segLength == 20.0 && srcLen <= segdataSrc.Length && src == segdataSrc[..srcLen]
      requires i < srcLen && k0 == Course.Start(CourseGen.Shapes(src), i) && z0 == k0 as real * 20.0
      requires k0 + src[i].cnt <= Scenery.SegTotal(src) <= segdata.Length
      requires randPos == pos0 + Scenery.CourseDraws(src, i)
      modifies segdata, this`randPos
      ensures k == k0 + src[i].cnt && z == k as real * 20.0
      ensures randPos == pos0 + Scenery.CourseDraws(src, i) + Billboard.RunDraws(src[i].bb, src[i].cnt)
      ensures forall m {:trigger segdata[m]} :: 0 <= m < k0 ==> segdata[m] == old(segdata[m])
      ensures forall m {:trigger segdata[m]} :: k0 <= m < k ==> segdata[m] == Scenery.SegmentAt(rand, pos0, src, segLength, m)
    {
      k, z := k0, z0;
      var cnt := segdataSrc[i].cnt;
      ghost var i2 := (i + 1) % srcLen;
      assert segdataSrc[i] == src[i] && segdataSrc[i2] == src[i2];
      for j := 0 to cnt
        invariant segdataSrc[i] == src[i] && segdataSrc[i2] == src[i2]
        invariant k == k0 + j && z == k as real * 20.0
        invariant randPos == pos0 + Scenery.CourseDraws(src, i) + Billboard.RunDraws(src[i].bb, j)
        invariant forall m {:trigger segdata[m]} :: 0 <= m < k0 ==> segdata[m] == old(segdata[m])
        invariant forall m {:trigger segdata[m]} :: k0 <= m < k ==> segdata[m] == Scenery.SegmentAt(rand, pos0, src, segLength, m)
      {
        var k1, z1 := k + 1, z + segLength;
        StepOn(k, 20.0, z, k1, z1);
        WriteSegment(i, j, k, z, src, pos0);
        k, z := k1, z1;
      }
    }

    /** `expand_segdata`: every run's segments in order, `z` stepping by `seg_length`. */
    method ExpandSegdata() returns (ghost want: seq<Scenery.Segment>)
      requires roadW == Billboard.RoadW && segLength == 20.0 && srcLen <= segdataSrc.Length
      requires course == segdataSrc[..srcLen] && segMax == Scenery.SegTotal(course) <= segdata.Length
      modifies segdata, this`randPos
      ensures want == Scenery.Expanded(rand, old(randPos), course, segLength) && |want| == segMax
      ensures forall m :: 0 <= m < |want| ==> segdata[m] == want[m]
      ensures randPos == old(randPos) + Scenery.CourseDraws(course, |course|)
    {
      ghost var src := course;
      ghost var runs := CourseGen.Shapes(src);
      ghost var pos0 := randPos;
      want := Scenery.Expanded(rand, pos0, src, segLength);
      var z := 0.0;
      var k := 0;
      assert runs[..|runs|] == runs;
      for i := 0 to srcLen
        invariant k == Course.Start(runs, i) <= Course.SegCount(runs) && z == k as real * 20.0
        invariant randPos == pos0 + Scenery.CourseDraws(src, i)
        invariant forall m {:trigger segdata[m]} :: 0 <= m < k ==> segdata[m] == want[m]
      {
        Course.StartNext(runs, i);
        Course.StartMono(runs, i + 1, |runs|);
        k, z := ExpandRun(i, k, z, src, pos0);
      }
    }

    /** `update`: one frame. The session `switch` runs first (its step 0 re-creates the
        course with `init_work`), then the camera, background, window and cars move. */
    method Update()
      requires Consts() && (step == 0 || Valid())
      modifies this`step, this`cameraZ, this`spd, this`laps, this`fadev, this`bgX, this`bgY, this`angle
      modifies this`randPos, this`srcLen, this`segMax, this`segTotalLength, this`course, this`coursePos, this`base
      modifies cars, segdataSrc, segdata, dt
      ensures Valid()
      ensures var ph := Session.SwitchC(Session.Phase(old(step), old(fadev), old(laps)));
              var (cam, wrapped) := Projection.CameraStep(if old(step) == 0 then 0.0 else old(cameraZ), spd, segTotalLength);
              step == ph.step && fadev == ph.fadev && cameraZ == cam && laps == ph.laps + (if wrapped then 1 else 0)
      ensures var idx := Projection.SegIndexC(cameraZ, segLength, segMax);
              dt[..] == Scenery.Window(base, idx, CFmod(cameraZ, segTotalLength), segLength, shiftCamX, roadY, ViewDist)
      ensures forall c :: 0 <= c < Traffic.CarCount ==>
                cars[c] == Traffic.MoveCar(if old(step) == 0 then Traffic.InitialCars()[c] else old(cars[c]),
                                           cameraZ, angle, sin, roadW, spdMax, segTotalLength)
      ensures var idx := Projection.SegIndexC(cameraZ, segLength, segMax);
              bgX == Background.NextBgXC(if old(step) == 0 then 0.0 else old(bgX), base[idx].curve, spd, spdMax, BgGain) &&
              bgY == Background.NextBgY(if old(step) == 0 then 0.0 else old(bgY), base[idx].pitch, spd, spdMax)
      ensures angle == (if old(step) == 0 then 0.0 else old(angle)) + spd * 1.0
      ensures old(step) != 0 ==> segMax == old(segMax)
      ensures var idx := Projection.SegIndexC(cameraZ, segLength, segMax);
              forall m :: 0 <= m < segMax ==>
                segdata[m] == Scenery.Framed(if old(step) == 0 then base[m] else old(segdata[m]), idx, m, segMax, ViewDist, dt[..],
                                             Traffic.CarBits(cars[..], m, segLength, segMax))
    {
      ghost var c0 := if step == 0 then Traffic.InitialCars() else cars[..];
      SessionStep();
      assert cars[..] == c0;
      Drive();
    }

    /** The `switch (gw.step)` of `update`: 0 runs `init_work` and starts the fade-in, 1 fades
        in, 2 waits for `laps_limit` laps, 3 fades out and returns to 0. */
    method SessionStep()
      requires Consts() && (step == 0 || Valid())
      modifies this`step, this`cameraZ, this`spd, this`laps, this`fadev, this`bgX, this`bgY, this`angle
      modifies this`randPos, this`srcLen, this`segMax, this`segTotalLength, this`course, this`coursePos, this`base
      modifies cars, segdataSrc, segdata
      ensures Valid()
      ensures Session.Phase(step, fadev, laps) == Session.SwitchC(Session.Phase(old(step), old(fadev), old(laps)))
      ensures old(step) == 0 ==> cameraZ == 0.0 && cars[..] == Traffic.InitialCars() &&
                                 (course, coursePos) == CourseGen.GenC(rand, old(randPos)) &&
                                 base == Scenery.Expanded(rand, coursePos, course, segLength)
      ensures old(step) != 0 ==> cameraZ == old(cameraZ) && cars[..] == old(cars[..]) &&
                                 course == old(course) && base == old(base) && randPos == old(randPos)
      ensures old(step) == 0 ==> bgX == 0.0 && bgY == 0.0 && angle == 0.0 &&
                                 forall m :: 0 <= m < segMax ==> segdata[m] == base[m]
      ensures old(step) != 0 ==> bgX == old(bgX) && bgY == old(bgY) && angle == old(angle) &&
                                 forall m :: 0 <= m < segMax ==> segdata[m] == old(segdata[m])
    {
      if step == 0 {
        InitWork();
        fadev := 1.0;
        step := step + 1;
      } else {
        PhaseStep();
      }
    }

    /** Steps 1 to 3 of the `switch`: only `step`, `fadev` and `laps` move, as `SwitchC` says. */
    method PhaseStep()
      requires Valid() && step != 0
      modifies this`step, this`fadev, this`laps
      ensures Valid()
      ensures Session.Phase(step, fadev, laps) == Session.SwitchC(Session.Phase(old(step), old(fadev), old(laps)))
    {
      match step
      case 1 =>
        fadev := fadev - 1.0 / (framerate * 1.3);
        if fadev <= 0.0 {
          fadev := 0.0;
          step := step + 1;
        }
      case 2 =>
        if laps >= lapsLimit {
          fadev := 0.0;
          step := step + 1;
        }
      case 3 =>
        fadev := fadev + 1.0 / (framerate * 2.0);
        if fadev >= 1.0 {
          fadev := 1.0;
          laps := 0;
          step := 0;
        }
    }

    /** The frame part of `update`, after the session step: `Advance` and then `Render`. */
    method Drive()
      requires Valid()
      modifies this`spd, this`cameraZ, this`laps, this`bgX, this`bgY, this`angle, dt, segdata, cars
      ensures Valid() && spd == spdMaxM
      ensures var (cam, wrapped) := Projection.CameraStep(old(cameraZ), spd, segTotalLength);
              cameraZ == cam && laps == old(laps) + (if wrapped then 1 else 0)
      ensures var idx := Projection.SegIndexC(cameraZ, segLength, segMax);
              bgX == Background.NextBgXC(old(bgX), base[idx].curve, spd, spdMax, BgGain) &&
              bgY == Background.NextBgY(old(bgY), base[idx].pitch, spd, spdMax)
      ensures var idx := Projection.SegIndexC(cameraZ, segLength, segMax);
              dt[..] == Scenery.Window(base, idx, CFmod(cameraZ, segTotalLength), segLength, shiftCamX, roadY, ViewDist)
      ensures angle == old(angle) + spd * 1.0
      ensures forall c :: 0 <= c < Traffic.CarCount ==>
                cars[c] == Traffic.MoveCar(old(cars[c]), cameraZ, angle, sin, roadW, spdMax, segTotalLength)
      ensures var idx := Projection.SegIndexC(cameraZ, segLength, segMax);
              forall m :: 0 <= m < segMax ==>
                segdata[m] == Scenery.Framed(old(segdata[m]), idx, m, segMax, ViewDist, dt[..],
                                             Traffic.CarBits(cars[..], m, segLength, segMax))
    {
      var idx := Advance();
      Render(idx, segdata[..], cars[..]);
    }

    /** The first half of the frame: cap the speed, move the camera (counting a lap on
        wrap), find the segment under it, and scroll the background by its curve and pitch. */
    method Advance() returns (idx: nat)
      requires Valid()
      modifies this`spd, this`cameraZ, this`laps, this`bgX, this`bgY
      ensures Valid() && spd == spdMaxM
      ensures var (cam, wrapped) := Projection.CameraStep(old(cameraZ), spd, segTotalLength);
              cameraZ == cam && laps == old(laps) + (if wrapped then 1 else 0)
      ensures idx == Projection.SegIndexC(cameraZ, segLength, segMax) && idx < segMax
      ensures bgX == Background.NextBgXC(old(bgX), base[idx].curve, spd, spdMax, BgGain) &&
              bgY == Background.NextBgY(old(bgY), base[idx].pitch, spd, spdMax)
    {
      if spd >= spdMaxM {
        spd := spdMaxM;
      }
      MoveCamera();
      idx := SegIndex();
      var curve, pitch := segdata[idx].curve, segdata[idx].pitch;
      assert Scenery.Fixed(segdata[idx]) == base[idx];
      UpdateBgPos(curve, pitch);
    }

    /** The second half of the frame, from the segment `idx` under the camera: record the
        window while writing each point back into its segment, then move the cars and
        mark their segments. */
    method Render(idx: nat, ghost s0: seq<Scenery.Segment>, ghost oc: seq<Traffic.Car>)
      requires Valid() && idx == Projection.SegIndexC(cameraZ, segLength, segMax) && segdata[..] == s0 && cars[..] == oc
      modifies this`angle, dt, segdata, cars
      ensures Laid() && CarsPlaced()
      ensures dt[..] == Scenery.Window(base, idx, CFmod(cameraZ, segTotalLength), segLength, shiftCamX, roadY, ViewDist)
      ensures angle == old(angle) + spd * 1.0
      ensures forall c :: 0 <= c < Traffic.CarCount ==>
                cars[c] == Traffic.MoveCar(oc[c], cameraZ, angle, sin, roadW, spdMax, segTotalLength)
      ensures forall m :: 0 <= m < segMax ==>
                segdata[m] == Scenery.Framed(s0[m], idx, m, segMax, ViewDist, dt[..],
                                             Traffic.CarBits(cars[..], m, segLength, segMax))
    {
      RenderWindow(idx, s0);
      ghost var s1 := segdata[..];
      UpdateCars(oc, s1);
      assert cars[..Traffic.CarCount] == cars[..];
      FrameStep(s0, s1, segdata[..], dt[..], cars[..], idx, segLength, segMax);
    }

    /** The window half of `Render`: the accumulators start from the camera's offset in
        segment `idx`, and the window loop records every point and writes it back over
        the segments `s0`. */
    method RenderWindow(idx: nat, ghost s0: seq<Scenery.Segment>)
      requires Valid() && idx == Projection.SegIndexC(cameraZ, segLength, segMax) && segdata[..] == s0
      modifies dt, segdata
      ensures dt[..] == Scenery.Window(base, idx, CFmod(cameraZ, segTotalLength), segLength, shiftCamX, roadY, ViewDist)
      ensures forall m :: 0 <= m < |s0| ==>
                segdata[m] == if m < segMax && Scenery.Offset(idx, m, segMax) < ViewDist
                              then Scenery.WrittenBack(s0[m], dt[Scenery.Offset(idx, m, segMax)])
                              else s0[m]
    {
      var z, curve, pitch := segdata[idx].z, segdata[idx].curve, segdata[idx].pitch;
      assert Scenery.Fixed(segdata[idx]) == base[idx];
      var ccz := CFmod(cameraZ, segTotalLength);
      var a0 := Projection.Origin(Course.Seg(z, curve, pitch), ccz, segLength);
      assert a0 == Scenery.Origin(base, idx, ccz, segLength);
      assert forall m :: 0 <= m < segMax ==> Scenery.Fixed(s0[m]) == base[m];
      RecordWindow(idx, a0, s0, base);
      assert dt[..] == Scenery.Window(base, idx, ccz, segLength, shiftCamX, roadY, ViewDist);
    }

    /** The camera step of `update`: `camera_z += spd`; on passing the end of the course,
        the course length is taken off and a lap is counted. */
    method MoveCamera()
      modifies this`cameraZ, this`laps
      ensures var (cam, wrapped) := Projection.CameraStep(old(cameraZ), spd, segTotalLength);
              cameraZ == cam && laps == old(laps) + (if wrapped then 1 else 0)
    {
      cameraZ := cameraZ + spd;
      if cameraZ >= segTotalLength {
        cameraZ := cameraZ - segTotalLength;
        laps := laps + 1;
      }
    }

    /** The segment index of `update`: 0 at `camera_z == 0`, otherwise the truncated
        quotient reduced into `[0, seg_max)`. */
    method SegIndex() returns (idx: nat)
      requires segLength > 0.0 && segMax > 0
      ensures idx == Projection.SegIndexC(cameraZ, segLength, segMax) && idx < segMax
    {
      idx := 0;
      if cameraZ != 0.0 {
        var q := CRem(Trunc(cameraZ / segLength), segMax);
        if q < 0 {
          q := q + segMax;
        }
        idx := q;
      }
    }

    /** `update_bg_pos`: `bg_x` moves with the curve and wraps by `fmodf`; `bg_y` follows the
        pitch, or drifts back to 0 on flat road, and is clamped to `[-1, 1]`. */
    method UpdateBgPos(curve: real, pitch: real)
      requires Consts() && spd == spdMaxM
      modifies this`bgX, this`bgY
      ensures bgX == Background.NextBgXC(old(bgX), curve, spd, spdMax, BgGain)
      ensures bgY == Background.NextBgY(old(bgY), pitch, spd, spdMax)
    {
      bgX := bgX + curve * (spd / spdMax) * BgGain;
      Background.NextBgXCAt(old(bgX), curve, spd, spdMax, BgGain, bgX);
      bgX := CFmod(bgX, 1.0);
      if spd > 0.0 {
        if pitch != 0.0 {
          bgY := bgY + pitch * (spd / spdMax) * 0.02;
        } else {
          var d := (spd / spdMax) * 0.025;
          if bgY < 0.0 {
            bgY := bgY + d * 0.1;
            if bgY >= 0.0 {
              bgY := 0.0;
            }
          }
          if bgY > 0.0 {
            bgY := bgY - d * 0.1;
            if bgY <= 0.0 {
              bgY := 0.0;
            }
          }
        }
      }
      if bgY < -1.0 {
        bgY := -1.0;
      }
      if bgY > 1.0 {
        bgY := 1.0;
      }
    }

    /** The window loop of `update`, from the accumulators `a0` at segment `idx`: point `k`
        stands for segment `i = (idx + k) % seg_max`, takes its band and billboard, and is
        written back into it (screen position, car flags cleared) before the accumulators
        step over it. */
    method RecordWindow(idx: nat, a0: Projection.Acc, ghost o: seq<Scenery.Segment>, ghost b: seq<Scenery.Segment>)
      requires dt.Length == ViewDist && ViewDist <= segMax <= segdata.Length && segdata[..] == o
      requires |b| == segMax && idx < segMax
      requires forall m :: 0 <= m < segMax ==> Scenery.Fixed(o[m]) == b[m]
      modifies dt, segdata
      ensures Recorded(idx, a0, o, b, ViewDist)
    {
      var a := a0;
      for k := 0 to ViewDist
        invariant Recorded(idx, a0, o, b, k) && a == Projection.AccAt(Scenery.Geometry(b), idx, a0, segLength, k)
      {
        a := RecordStep(idx, k, a, a0, o, b);
      }
    }

    /** The first `k` points of the window from segment `idx` are in `dt`, and the segments
        they visit hold `o`'s segments with those points written back; the others are `o`'s. */
    ghost predicate Recorded(idx: nat, a0: Projection.Acc, o: seq<Scenery.Segment>, b: seq<Scenery.Segment>, k: nat)
      reads this, dt, segdata
    {
      k <= dt.Length && |b| == segMax && idx < segMax && segMax <= |o| == segdata.Length &&
      (forall n :: 0 <= n < k ==> dt[n] == Scenery.PointAt(b, idx, a0, segLength, shiftCamX, roadY, n)) &&
      (forall m :: 0 <= m < |o| ==>
         segdata[m] == if m < segMax && Scenery.Offset(idx, m, segMax) < k
                       then Scenery.WrittenBack(o[m], dt[Scenery.Offset(idx, m, segMax)])
                       else o[m])
    }

    /** The window loop from point `k` to point `k + 1`: `RecordPoint`, with the points
        before `k` kept and the segments they visit written back over `o`. */
    method RecordStep(idx: nat, k: nat, a: Projection.Acc, ghost a0: Projection.Acc, ghost o: seq<Scenery.Segment>,
                      ghost b: seq<Scenery.Segment>)
      returns (a': Projection.Acc)
      requires dt.Length == ViewDist && k < ViewDist <= segMax <= segdata.Length == |o|
      requires |b| == segMax && idx < segMax
      requires forall m :: 0 <= m < segMax ==> Scenery.Fixed(o[m]) == b[m]
      requires Recorded(idx, a0, o, b, k) && a == Projection.AccAt(Scenery.Geometry(b), idx, a0, segLength, k)
      modifies dt, segdata
      ensures Recorded(idx, a0, o, b, k + 1) && a' == Projection.AccAt(Scenery.Geometry(b), idx, a0, segLength, k + 1)
    {
      Scenery.OffsetsVisit(idx, segMax);
      ghost var i := Projection.Visit(idx, k, segMax);
      assert Scenery.Offset(idx, i, segMax) == k;
      assert segdata[i] == o[i];
      ghost var s1, d1 := segdata[..], dt[..];
      a' := RecordPoint(idx, k, a, a0, b);
      WriteBackStep(o, s1, segdata[..], d1, dt[..], idx, k, segMax);
    }

    /** One pass of the window loop: point `k`, for segment `i = (idx + k) % seg_max`, is
        recorded with the band `15 - i % 16` and the segment's billboard, the segment gets
        the point's screen position and its car flags cleared, and the accumulators `a`
        step over it. */
    method RecordPoint(idx: nat, k: nat, a: Projection.Acc, ghost a0: Projection.Acc, ghost b: seq<Scenery.Segment>) returns (a': Projection.Acc)
      requires dt.Length == ViewDist && k < ViewDist <= segMax <= segdata.Length
      requires |b| == segMax && idx < segMax
      requires a == Projection.AccAt(Scenery.Geometry(b), idx, a0, segLength, k)
      requires var i := Projection.Visit(idx, k, segMax); Scenery.Fixed(segdata[i]) == b[i]
      modifies dt, segdata
      ensures a' == Projection.AccAt(Scenery.Geometry(b), idx, a0, segLength, k + 1)
      ensures dt[k] == Scenery.PointAt(b, idx, a0, segLength, shiftCamX, roadY, k)
      ensures var i := Projection.Visit(idx, k, segMax); segdata[i] == Scenery.WrittenBack(old(segdata[i]), dt[k])
      ensures forall n :: 0 <= n < dt.Length && n != k ==> dt[n] == old(dt[n])
      ensures forall m :: 0 <= m < segdata.Length && m != Projection.Visit(idx, k, segMax) ==> segdata[m] == old(segdata[m])
    {
      var cx, cy, cz, xd, yd := a.x, a.y, a.z, a.xd, a.yd;
      var i := (idx + k) % segMax;
      var attr := (16 - 1) - i % 16;
      var x := cx + shiftCamX;
      var y := cy + roadY;
      dt[k] := Scenery.Dt(x, y, cz, attr, i, segdata[i].spr);
      segdata[i] := segdata[i].(x := x, y := y, cars := 0);
      cx := cx + xd;
      cy := cy + yd;
      cz := cz + segLength;
      xd := xd + segdata[i].curve;
      yd := yd + segdata[i].pitch;
      a' := Projection.Acc(cx, cy, cz, xd, yd);
    }

    /** The `switch (kind)` of `update_cars` for car `c`: its new position and sprite for
        the frame, with `angle` already advanced. */
    method MoveCarAt(c: nat)
      requires c < cars.Length && segTotalLength > 0.0
      modifies cars
      ensures cars[c] == Traffic.MoveCar(old(cars[c]), cameraZ, angle, sin, roadW, spdMax, segTotalLength)
      ensures forall n :: 0 <= n < cars.Length && n != c ==> cars[n] == old(cars[n])
    {
      var car := cars[c];
      var kind := car.kind;
      var x, z, sprKind := car.x, car.z, car.sprKind;
      match kind {
        case 0 =>
          var d := 170.0;
          var rx := roadW * 0.5;
          sprKind := Billboard.SprScooter;
          x := -rx * 1.35 + (rx * 0.25) * sin(0.035 * Traffic.Deg2Rad(angle));
          z := cameraZ + d + 20.0 * sin(0.1 * Traffic.Deg2Rad(angle));
        case 1 =>
          var d := 300.0;
          sprKind := Billboard.SprCar0;
          x := -roadW * 0.25;
          z := cameraZ + d + 150.0 * sin(0.02 * Traffic.Deg2Rad(angle));
        case 2 =>
          sprKind := Billboard.SprCar0 + 1;
          x := roadW * 0.25;
          z := z - spdMax * 0.25;
          if z < 0.0 {
            z := z + segTotalLength;
          }
        case 3 =>
          sprKind := Billboard.SprCar0 + 2;
          x := roadW * 0.7;
          z := z - spdMax * 0.2;
          if z < 0.0 {
            z := z + segTotalLength;
          }
        case _ =>
      }
      cars[c] := Traffic.Car(kind, x, 0.0, z, sprKind);
    }

    /** The flag step of `update_cars` for car `c`: its bit `1 << kind` is ORed into the
        draw flags of the segment `(int)(z / seg_length) % seg_max` it is on, wrapped
        non-negative. */
    method FlagCar(c: nat)
      requires c < cars.Length && 0 <= cars[c].kind < 4
      requires segLength > 0.0 && 0 < segMax <= segdata.Length
      modifies segdata
      ensures forall m :: 0 <= m < segdata.Length ==>
                segdata[m] == if m == Traffic.CarSegment(cars[c], segLength, segMax)
                              then old(segdata[m]).(cars := old(segdata[m]).cars | Traffic.Bit(cars[c].kind))
                              else old(segdata[m])
    {
      var kind := cars[c].kind;
      var idx := CRem(Trunc(cars[c].z / segLength), segMax);
      if idx < 0 {
        idx := idx + segMax;
      }
      assert idx == Traffic.CarSegment(cars[c], segLength, segMax);
      segdata[idx] := segdata[idx].(cars := segdata[idx].cars | Traffic.Bit(kind));
    }

    /** `update_cars`: `angle += spd`; every car moves, then ORs its bit `1 << kind` into
        the draw flags of the segment it is on. `oc` and `os` are the cars and segments
        before the call. */
    method UpdateCars(ghost oc: seq<Traffic.Car>, ghost os: seq<Scenery.Segment>)
      requires segLength == 20.0 && 0 < segMax <= segdata.Length && segTotalLength > 0.0
      requires cars[..] == oc && segdata[..] == os
      requires cars.Length == Traffic.CarCount && forall c :: 0 <= c < Traffic.CarCount ==> cars[c].kind == c
      modifies this`angle, cars, segdata
      ensures angle == old(angle) + spd * 1.0
      ensures CarsMoved(oc, os, Traffic.CarCount)
    {
      angle := angle + spd * 1.0;
      assert Traffic.Flaggable(cars[..0]);
      for c := 0 to Traffic.CarCount
        invariant angle == old(angle) + spd * 1.0 && CarsMoved(oc, os, c)
      {
        CarStep(c, oc, os);
      }
    }

    /** The first `c` cars of `oc` have moved and the rest have not, and the segments are
        those of `os` with the moved cars' bits ORed in. */
    ghost predicate CarsMoved(oc: seq<Traffic.Car>, os: seq<Scenery.Segment>, c: nat)
      reads this, cars, segdata
    {
      segLength == 20.0 && 0 < segMax <= segdata.Length == |os| && segTotalLength > 0.0 &&
      c <= cars.Length == |oc| == Traffic.CarCount &&
      (forall n :: 0 <= n < Traffic.CarCount ==> oc[n].kind == n) &&
      (forall n :: 0 <= n < c ==> cars[n] == Traffic.MoveCar(oc[n], cameraZ, angle, sin, roadW, spdMax, segTotalLength)) &&
      (forall n :: c <= n < cars.Length ==> cars[n] == oc[n]) &&
      Traffic.Flaggable(cars[..c]) &&
      (forall m :: 0 <= m < |os| ==>
         segdata[m] == if m < segMax
                       then os[m].(cars := os[m].cars | Traffic.CarBits(cars[..c], m, segLength, segMax))
                       else os[m])
    }

    /** One pass of the car loop of `update_cars`: car `c` moves and marks its segment, so
        that `CarsMoved(oc, os, c + 1)` holds, spelled out. */
    method CarStep(c: nat, ghost oc: seq<Traffic.Car>, ghost os: seq<Scenery.Segment>)
      requires c < Traffic.CarCount && CarsMoved(oc, os, c)
      modifies cars, segdata
      ensures segLength == 20.0 && 0 < segMax <= segdata.Length == |os| && segTotalLength > 0.0
      ensures c + 1 <= cars.Length == |oc| == Traffic.CarCount
      ensures forall n :: 0 <= n < Traffic.CarCount ==> oc[n].kind == n
      ensures forall n :: 0 <= n < c + 1 ==> cars[n] == Traffic.MoveCar(oc[n], cameraZ, angle, sin, roadW, spdMax, segTotalLength)
      ensures forall n :: c + 1 <= n < cars.Length ==> cars[n] == oc[n]
      ensures Traffic.Flaggable(cars[..c + 1])
      ensures forall m :: 0 <= m < |os| ==>
                segdata[m] == if m < segMax
                              then os[m].(cars := os[m].cars | Traffic.CarBits(cars[..c + 1], m, segLength, segMax))
                              else os[m]
    {
      ghost var before := cars[..c];
      MoveCarAt(c);
      assert cars[..c] == before;
      assert cars[c] == Traffic.MoveCar(oc[c], cameraZ, angle, sin, roadW, spdMax, segTotalLength);
      assert cars[c].kind == c;
      assert Traffic.Flaggable(cars[..c + 1]);
      ghost var s1 := segdata[..];
      FlagCar(c);
      assert cars[..c + 1][..c] == cars[..c];
      FlagStep(os, s1, segdata[..], cars[..c + 1], segLength, segMax);
    }
  }
}
