# Pseudo-3D road, verified model

This project models the core of a pseudo-3D racing road, the effect in which a straight
road is made to look like it curves and climbs. The road comes in three stages. Each stage
exists as a C program and as the Python program it was ported from.

- **02** expands a fixed table of 16 course runs into 195 segments. Each frame it moves a
  camera along the road and records the projected centre line of the next segments. The
  line bends because the curve and pitch of each visited segment are summed twice.
- **03** adds a scrolling background, which drifts sideways on curves and up or down on
  slopes, and a light/dark band attribute per segment.
- **04** draws a random course with roadside billboards, which are trees, grass, houses,
  slopes, arrow signs and a start beam. It adds four other cars that mark the segment
  they occupy, and a session that fades in, runs two laps, fades out and starts over with
  a new course.

Each core source file is a Dafny module with a class `Gwk`, the program's global work
record. The class's methods change its fields as the source does:
`Road02C`, `Road02Py`, `Road03C`, `Road03Py`, `Road04C`, `Road04Py`.

The shared modules hold the specification functions the methods are proved against, and
the lemmas about them:

- `Numeric`: C and Python rounding and remainder.
- `Course`: expanding runs into segments.
- `FixedCourse`: the 02/03 table.
- `Projection`: camera, segment index and the projection recurrence.
- `Background`: background scrolling.
- `Session`: the 04 step machine.
- `Traffic`: cars and their occupancy flags.
- `Billboard`: `set_billboard`.
- `CourseGen`: `init_course_random`.
- `Scenery`: the expanded 04 course, the recorded window and the frame's write-back.

Floats are `real`. C `(int)` truncates toward zero (`Numeric.Trunc`), and C `%` on a
negative operand keeps the sign (`Numeric.CRem`). `fmodf` is `Numeric.CFmod` and Python's
float `%` is `Numeric.PyFmod`. The random generator (`rand()`, `random.randint`) is a
stream `rand: nat -> nat` with a cursor `randPos` in the class. Each call takes the next
number in the source's order, so `rand() % n` is `rand(pos) % n`. `sin` is an
unconstrained function parameter. The 150..450 band of car kinds 0 and 1 in
`Traffic.MoveCar` is stated under `Traffic.SinBounded`, that is, for a `sin` in [-1, 1].

## Model

| member | source | states |
|---|---|---|
| Numeric.Trunc | 04_ps3d_bb/04_ps3d_bb.c:902 | C `(int)` on a float: the largest integer not above a non-negative value, the smallest not below a negative one |
| Numeric.CRem | 04_ps3d_bb/04_ps3d_bb.c:902-904 | C `%`: lies strictly between -b and b, agrees with the mathematical remainder for non-negative operands, is non-positive for non-positive ones, and adding b when negative gives the mathematical remainder (the `idx += seg_max` correction) |
| Numeric.CFmod | 04_ps3d_bb/04_ps3d_bb.c:916 | `fmodf`: strictly inside (-b, b), equals Python's `%` for non-negative operands, keeps a value already in [0, b) |
| Numeric.PyFmod | 04_ps3d_bb/original_py/10_ps3d_tex.py:652 | Python float `%` with a positive divisor: always in [0, b), and the identity on [0, b) |
| Numeric.Lerp | 02_ps3d/02_ps3d.c:114-116 | `a + (b - a) * t`: gives a at t = 0 and b at t = 1, and is constant when a == b |
| Numeric.LerpBetween | 02_ps3d/02_ps3d.c:114-116 | for 0 <= t <= 1 the blended curve/pitch lies between the two run values |
| Course.CountSegments | 02_ps3d/02_ps3d.c:134-136 | the counting loop yields the total of the runs' `cnt` fields |
| Course.StartMono | 02_ps3d/02_ps3d.c:110-122 | the first segment index of a run never decreases along the table |
| Course.Locate | 02_ps3d/02_ps3d.c:98-122 | every segment index k comes from exactly one run i and offset j < cnt with Start(i) + j == k |
| Course.Expand | 02_ps3d/02_ps3d.c:93-124 | the expansion has exactly one segment per counted segment |
| Course.LocateStart | 02_ps3d/02_ps3d.c:110-122 | segment Start(i) + j is located back at run i, offset j (the inverse of Locate) |
| Course.ExpandAt | 02_ps3d/02_ps3d.c:110-122 | the segment written for run i, offset j sits at index Start(i) + j of the expansion |
| Course.SegAtOf | 02_ps3d/02_ps3d.c:110-122 | the segment at index Start(i) + j is the one built from run i, offset j |
| Course.SegAtBlend | 02_ps3d/02_ps3d.c:103-119 | segment Start(i) + j has z = k * seg_length and blends curve and pitch from run i toward run (i + 1) % n by j / cnt |
| Course.SegAtBlendPlain | 02_ps3d/02_ps3d.c:114-119 | the blend written with the source's own arithmetic is the expanded segment (pitch as given) |
| Course.SegAtBlendFlip | 04_ps3d_bb/04_ps3d_bb.c:626-629 | the same with the pitch negated, as the 04 expansion does |
| Course.SegOfFirst | 02_ps3d/02_ps3d.c:114-116 | the first segment of a run carries the run's own curve and pitch |
| Course.SegOfCurve | 02_ps3d/02_ps3d.c:115 | every segment's curve lies between its run's curve and the next run's |
| Course.ExpandZ | 02_ps3d/02_ps3d.c:117-121 | z of expanded segment k is k * seg_length |
| Course.ExpandRunStart | 02_ps3d/02_ps3d.c:114-116 | the expansion at each run's first index carries the run's curve and (possibly negated) pitch |
| Course.ExpandCurveBetween | 02_ps3d/02_ps3d.c:115 | every expanded curve lies between the curves of the run it belongs to and of the next run |
| Course.StartGap | 04_ps3d_bb/04_ps3d_bb.c:441-443 | runs whose counts lie in [lo, hi] contribute between lo and hi segments each |
| FixedCourse.TableSegCount | 02_ps3d/02_ps3d.c:70-91 | the fixed table has 16 runs totalling 195 segments, within SEG_MAX_LIMIT |
| FixedCourse.SegMax | 02_ps3d/02_ps3d.c:134-136 | seg_max of the fixed course is 195 |
| Projection.WrapIndexC | 04_ps3d_bb/04_ps3d_bb.c:1033-1035 | `(int)(v / seg_length) % seg_max`, corrected when negative, is always a valid segment index |
| Projection.WrapIndexPy | 04_ps3d_bb/original_py/10_ps3d_tex.py:561-563 | the Python form (Python `%`) is always a valid segment index |
| Projection.WrapIndexAgree | 04_ps3d_bb/original_py/10_ps3d_tex.py:561-563 | the C form with its `+ seg_max` correction and the Python form give the same index for every value |
| Projection.WrapIndexFloor | 04_ps3d_bb/04_ps3d_bb.c:1033 | for non-negative values the index is floor(v / seg_length) mod seg_max |
| Projection.SegIndexC | 02_ps3d/02_ps3d.c:152-159 | the camera's segment index (0 when camera_z is 0) is below seg_max |
| Projection.SegIndexPy | 02_ps3d/original_py/06_ps3d.py:101-106 | the Python camera segment index is below seg_max |
| Projection.SegIndexOnCourse | 02_ps3d/02_ps3d.c:152-159 | on the course, the C and Python indices agree and name the segment whose z-range contains the camera |
| Projection.CameraStep | 02_ps3d/02_ps3d.c:145-150 | the camera advances by spd and wraps by exactly one course length iff it reached it; from [0, total) with 0 <= spd <= total it stays in [0, total) |
| Projection.OriginParabola | 02_ps3d/02_ps3d.c:166-178 | the start point of the projection is the parabola x = camz^2 * curve, with slopes -camz * curve and -camz * pitch and z = seg.z - ccz |
| Projection.OriginOnSegment | 02_ps3d/02_ps3d.c:170-178 | with the camera inside the segment, camz lies in [0, 1) and the first z lies in (-seg_length, 0] |
| Projection.Visit | 02_ps3d/02_ps3d.c:189 | `(idx + k) % seg_max` is a valid segment index |
| Projection.AccZ | 02_ps3d/02_ps3d.c:181-192 | after k steps the recorded z has advanced by k * seg_length |
| Projection.AccSecondDiff | 02_ps3d/02_ps3d.c:186-191 | the second difference of the recorded x (y) is the curve (pitch) of the visited segment |
| Projection.AccSlope | 02_ps3d/02_ps3d.c:186-190 | the x slope after k steps is the start slope plus the sum of the visited curves |
| Projection.StraightRoadCentred | 02_ps3d/02_ps3d.c:166-192 | on a course without curves every recorded x and x slope is 0 |
| Projection.WindowStart | 02_ps3d/02_ps3d.c:153-178 | with z-aligned segments the first recorded z lies in (-seg_length, 0], for both the C (fmodf) and the Python (%) camera |
| Projection.VisitDistinct | 02_ps3d/02_ps3d.c:189 | the window never visits the same segment twice |
| Projection.Band | 04_ps3d_bb/04_ps3d_bb.c:929 | `(m - 1) - i % m` lies in [0, m) and is m - 1 exactly on every m-th segment |
| Background.Clamp | 04_ps3d_bb/04_ps3d_bb.c:981-985 | bg_y is clamped to [-1, 1], unchanged inside, -1 below, 1 above |
| Background.NextBgY | 04_ps3d_bb/04_ps3d_bb.c:958-985 | the vertical scroll stays in [-1, 1]; standing still only clamps; on level road it moves toward 0 without overshooting, and stays at 0 |
| Background.DriftTowardLevel | 04_ps3d_bb/04_ps3d_bb.c:964-979 | on level road a bg_y within [-1, 1] moves toward 0 and never crosses it |
| Background.NextBgXC | 04_ps3d_bb/04_ps3d_bb.c:955-956 | the C horizontal scroll stays strictly inside (-1, 1) |
| Background.NextBgXPy | 04_ps3d_bb/original_py/10_ps3d_tex.py:464-465 | the Python horizontal scroll stays in [0, 1) |
| Background.BgXAgree | 04_ps3d_bb/original_py/10_ps3d_tex.py:464-465 | C and Python scroll agree while the sum is non-negative; below it, only the C value goes non-positive |
| Background.BgXStill | 04_ps3d_bb/04_ps3d_bb.c:955-956 | on a straight, bg_x in [0, 1) does not move in either version |
| Session.SwitchC | 04_ps3d_bb/04_ps3d_bb.c:844-881 | the C step machine keeps step in 0..3 and fadev in [0, 1], moves one step at most, and returns to step 0 only from the fade-out with fadev 1 and laps reset |
| Session.SwitchPy | 04_ps3d_bb/original_py/10_ps3d_tex.py:602-626 | the same for the five Python steps 0..4 |
| Session.FadeInProgressC | 04_ps3d_bb/04_ps3d_bb.c:852-860 | t frames into the fade-in, fadev is 1 - t / 78 |
| Session.FadeInFramesC | 04_ps3d_bb/04_ps3d_bb.c:852-860 | the fade-in lasts exactly 78 frames and ends at step 2 with fadev 0 |
| Session.FadeOutProgressC | 04_ps3d_bb/04_ps3d_bb.c:869-878 | t frames into the fade-out, fadev is t / 120 |
| Session.FadeOutFramesC | 04_ps3d_bb/04_ps3d_bb.c:869-878 | the fade-out lasts exactly 120 frames and ends at step 0 with laps reset |
| Session.FadeInLastFrame | 04_ps3d_bb/04_ps3d_bb.c:855-858 | the 78th fade-in frame switches to the run step |
| Session.FadeOutLastFrame | 04_ps3d_bb/04_ps3d_bb.c:872-877 | the 120th fade-out frame restarts the session, in both versions |
| Session.RunStepWaits | 04_ps3d_bb/04_ps3d_bb.c:861-868 | the run step leaves iff laps has reached laps_limit, in both versions |
| Session.CycleC | 04_ps3d_bb/04_ps3d_bb.c:846-878 | a whole session: from step 0, 79 frames (initialisation and the 78-frame fade-in) reach the run step with fadev 0 and laps 0; once laps_limit laps are done, 121 frames (leaving the run step and the 120-frame fade-out) return to step 0 with fadev 1 and laps 0 |
| Session.FadeOutProgressPy | 04_ps3d_bb/original_py/10_ps3d_tex.py:620-626 | t frames into the Python fade-out, fadev is t / 120 |
| Session.FadeOutFramesPy | 04_ps3d_bb/original_py/10_ps3d_tex.py:617-626 | Python step 3 sets fadev to 0 in one frame; the fade-out then lasts 120 frames and restarts the session |
| Traffic.InitialCars | 04_ps3d_bb/04_ps3d_bb.c:427-435 | four cars, car i of kind i, all at z 0 |
| Traffic.Backward | 04_ps3d_bb/04_ps3d_bb.c:1017-1019 | an oncoming car moves back by its step, wrapping by one course length when it passes 0, and stays on the course |
| Traffic.MoveCar | 04_ps3d_bb/04_ps3d_bb.c:992-1030 | a car keeps its kind and y becomes 0; oncoming cars stay on the course; the scooter and the car ahead stay 150..450 ahead of the camera; other kinds only reset y |
| Traffic.BitIsShift | 04_ps3d_bb/04_ps3d_bb.c:1036 | the flag of kind k is `1 << k` |
| Traffic.BitsDisjoint | 04_ps3d_bb/04_ps3d_bb.c:1036 | flags of different kinds share no bit |
| Traffic.CarSegment | 04_ps3d_bb/04_ps3d_bb.c:1033-1035 | a car's segment index is valid |
| Traffic.HasBitSingle | 04_ps3d_bb/04_ps3d_bb.c:1036 | a single car flag carries the bit of its own kind and no other |
| Traffic.CarBitsMarks | 04_ps3d_bb/04_ps3d_bb.c:992-1036 | after flagging, segment i carries kind k's bit iff some car of kind k is on it |
| Traffic.MarksExists | 04_ps3d_bb/04_ps3d_bb.c:1033-1036 | a kind marks a segment iff one of the cars has that kind and that segment |
| Traffic.CarBitsExact | 04_ps3d_bb/04_ps3d_bb.c:992-1036 | the flags of a segment are exactly the kinds of the cars on it |
| Traffic.CarBitsElsewhere | 04_ps3d_bb/04_ps3d_bb.c:1033-1036 | a car's bit is absent from every segment it is not on (kinds are unique) |
| Billboard.Roll | 04_ps3d_bb/04_ps3d_bb.c:673 | `rand() % n` is below n |
| Billboard.RandomTree | 04_ps3d_bb/04_ps3d_bb.c:672-678 | a tree takes four draws, is a tree sprite, and stands between road_w + 100 and road_w + 499 on one side |
| Billboard.SlopeTree | 04_ps3d_bb/04_ps3d_bb.c:773-775 | a slope tree takes three draws and stands 300..899 beyond the road edge, on the left when negated |
| Billboard.SetBillboard | 04_ps3d_bb/04_ps3d_bb.c:661-809 | `set_billboard` consumes exactly the number of draws its zone and sub-index call for |
| Billboard.SetBillboardLegal | 04_ps3d_bb/original_py/10_ps3d_tex.py:155-264 | whatever the stream holds, every zone's placement keeps its cadence and ranges (beam exactly on every 7th segment, arrows every 4th segment, houses and slope trees alternating, ...) |
| CourseGen.Shapes | 04_ps3d_bb/04_ps3d_bb.c:613-629 | the geometric part of each source run, one per run |
| CourseGen.PickZone | 04_ps3d_bb/04_ps3d_bb.c:551-563 | the table lookup takes the first row whose `per` covers r, with one count draw; with no match it keeps NONE/10 and draws nothing |
| CourseGen.PickZoneFits | 04_ps3d_bb/original_py/10_ps3d_tex.py:352-359 | a draw r < 100 always matches a row, so the count lies in the table's range and the zone is no arrow |
| CourseGen.TablesWellFormed | 04_ps3d_bb/04_ps3d_bb.c:462-470 | both tables end at per 100 with positive spreads; C counts lie in 10..129, Python counts in 20..179 |
| CourseGen.SignedDraw | 04_ps3d_bb/04_ps3d_bb.c:530-549 | a curve/pitch draw is bounded by (n - 1) * 0.01 in magnitude and takes one or two draws |
| CourseGen.Draft | 04_ps3d_bb/original_py/10_ps3d_tex.py:334-365 | a random run has curve in (-3, 3) and pitch in (-0.4, 0.4); slope zones have curve within ±2 |
| CourseGen.DraftFits | 04_ps3d_bb/04_ps3d_bb.c:551-563 | a drawn run's count lies in the table's range and its zone is no arrow |
| CourseGen.SignpostedPlain | 04_ps3d_bb/04_ps3d_bb.c:593-597 | appending a non-sharp run keeps arrows and sharp curves paired |
| CourseGen.SignpostedPair | 04_ps3d_bb/original_py/10_ps3d_tex.py:367-380 | appending a sharp run behind its arrow keeps the pairing |
| CourseGen.BoundedAppend | 04_ps3d_bb/04_ps3d_bb.c:472-599 | bounded runs stay bounded under concatenation |
| CourseGen.CourseLen | 04_ps3d_bb/04_ps3d_bb.c:474 | a random course has 20..44 runs: `segdata_src_len` here, and the same draw is `segm_max` of `04_ps3d_bb/original_py/10_ps3d_tex.py:315` |
| CourseGen.InvCPending | 04_ps3d_bb/04_ps3d_bb.c:515-528 | writing the deferred sharp run keeps the C loop invariant |
| CourseGen.InvCDraw | 04_ps3d_bb/04_ps3d_bb.c:573-597 | a fresh draw keeps the invariant whether it is deferred behind an arrow or written directly |
| CourseGen.InvCFinish | 04_ps3d_bb/04_ps3d_bb.c:505-513 | the finishing run completes a framed, signposted course of exactly `len` runs |
| CourseGen.GenLoopCShape | 04_ps3d_bb/04_ps3d_bb.c:472-599 | from any invariant state the C loop yields `len` runs, framed and signposted |
| CourseGen.GenCShape | 04_ps3d_bb/04_ps3d_bb.c:472-599 | every C course: 20..44 runs, start/beam/finish runs fixed, values in range, every sharp curve preceded by its arrow (a sharp run at index len - 2 is never drafted) |
| CourseGen.InvPyDraw | 04_ps3d_bb/original_py/10_ps3d_tex.py:334-380 | one Python iteration keeps the loop invariant |
| CourseGen.InvPyFinish | 04_ps3d_bb/original_py/10_ps3d_tex.py:328-332 | the finishing run completes the Python course shape |
| CourseGen.GenLoopPyDrawn | 04_ps3d_bb/original_py/10_ps3d_tex.py:334-380 | a drawing iteration appends the drawn run, behind its arrow when sharp |
| CourseGen.GenLoopPyShape | 04_ps3d_bb/original_py/10_ps3d_tex.py:317-380 | from any invariant state the Python loop yields a framed, signposted course |
| CourseGen.GenPyShape | 04_ps3d_bb/original_py/10_ps3d_tex.py:304-380 | every Python course has segm_max..2 * segm_max - 3 runs, fixed start/beam/finish, values in range, every sharp curve directly preceded by its arrow and every arrow followed by its curve |
| CourseGen.FramedSegCount | 04_ps3d_bb/04_ps3d_bb.c:441-443 | a framed course has at least 103 + (runs - 3) * lo and at most runs * hi segments |
| CourseGen.GenCSegCount | 04_ps3d_bb/04_ps3d_bb.c:441-445 | a C course has 273..5676 segments |
| CourseGen.GenPySegCount | 04_ps3d_bb/original_py/10_ps3d_tex.py:89-94 | a Python course has at least 443 segments, more than the 200-segment view |
| Scenery.Sub | 04_ps3d_bb/04_ps3d_bb.c:613-659 | every expanded segment index belongs to a run and an offset inside it |
| Scenery.Expanded | 04_ps3d_bb/04_ps3d_bb.c:613-659 | one expanded segment per counted segment |
| Scenery.Geometry | 04_ps3d_bb/04_ps3d_bb.c:908-910 | the z/curve/pitch part of every segment, unchanged |
| Scenery.SubStart | 04_ps3d_bb/04_ps3d_bb.c:613-659 | index Start(i) + j is located at run i, offset j |
| Scenery.SegmentAtIs | 04_ps3d_bb/04_ps3d_bb.c:620-655 | the segment written for run i, offset j has z = k * 20, blended curve, negated blended pitch, x = y = 0, cars = 0, and the billboard drawn at the cursor after all earlier draws |
| Scenery.ExpandedShape | 04_ps3d_bb/original_py/10_ps3d_tex.py:96-128 | expanded segment k has z = k * 20, x = y = 0, no car flags, and the geometry of the generic expansion with negated pitch |
| Scenery.ExpandedFixed | 04_ps3d_bb/04_ps3d_bb.c:613-659 | every expanded segment starts with z aligned and only its fixed part set |
| Scenery.ExpandedLegal | 04_ps3d_bb/04_ps3d_bb.c:644 | every expanded segment's billboard keeps the cadence and range of its run's zone |
| Scenery.ExpandedRunStart | 04_ps3d_bb/04_ps3d_bb.c:626-629 | the first segment of each run carries the run's curve and its negated pitch |
| Scenery.Window | 04_ps3d_bb/04_ps3d_bb.c:915-948 | the recorded window has one entry per view step |
| Scenery.WindowShape | 04_ps3d_bb/04_ps3d_bb.c:915-948 | with the camera on segment idx, the first z lies in (-20, 0], z rises by 20 per step, entry k records segment (idx + k) % seg_max with a band in 0..15 that is 15 iff the index is a multiple of 16, and no segment is recorded twice |
| Scenery.Offset | 04_ps3d_bb/04_ps3d_bb.c:928 | the window step at which segment m is visited is below seg_max |
| Scenery.VisitOffset | 04_ps3d_bb/04_ps3d_bb.c:928 | visiting at the offset of m gives back m |
| Scenery.OffsetOfVisit | 04_ps3d_bb/04_ps3d_bb.c:928 | the offset of the segment visited at step k is k |
| Scenery.OffsetsVisit | 04_ps3d_bb/04_ps3d_bb.c:928 | visit and offset are inverse bijections on the segments |
| Scenery.Framed | 04_ps3d_bb/04_ps3d_bb.c:926-1037 | after a frame a segment keeps its fixed part; inside the window it holds the recorded x and y and exactly its cars' flags; outside, its x and y are kept and the new flags are ORed in |
| Road02C.Window | 02_ps3d/02_ps3d.c:143-193 | the C window has VIEW_DIST points |
| Road02C.WindowSpaced | 02_ps3d/02_ps3d.c:166-192 | on the course the first z lies in (-seg_length, 0] and the points are spaced seg_length apart |
| Road02C.Gwk.constructor | 02_ps3d/02_ps3d.c:126-141 | the work record starts at camera 0 with seg_max 195 and the table expanded into segdata |
| Road02C.Gwk.InitCourseData | 02_ps3d/02_ps3d.c:93-124 | every counted segment of the array is the expansion of the table |
| Road02C.Gwk.WriteSegment | 02_ps3d/02_ps3d.c:112-121 | writes segment k = Start(i) + j with its expansion and leaves the others |
| Road02C.Gwk.Update | 02_ps3d/02_ps3d.c:143-193 | the camera steps and wraps, and dt becomes the projection window at the new camera |
| Road02C.Gwk.MoveCamera | 02_ps3d/02_ps3d.c:145-150 | the camera advances by spd and wraps at the course length |
| Road02C.Gwk.SegIndex | 02_ps3d/02_ps3d.c:152-159 | computes the camera's segment index |
| Road02C.Gwk.RecordWindow | 02_ps3d/02_ps3d.c:181-192 | every dt[k] is the projected point after k steps of the recurrence |
| Road02Py.ExpandCourse | 02_ps3d/original_py/06_ps3d.py:57-80 | the appended list is the expansion of the table |
| Road02Py.NewSegment | 02_ps3d/original_py/06_ps3d.py:66-79 | builds the segment for run i, offset j |
| Road02Py.Reversed | 02_ps3d/original_py/06_ps3d.py:142 | `dt.reverse()` keeps the length |
| Road02Py.ReversedTwice | 02_ps3d/original_py/06_ps3d.py:142 | reversing twice gives back the list |
| Road02Py.Window | 02_ps3d/original_py/06_ps3d.py:93-131 | the Python window has view_distance points |
| Road02Py.WindowSpaced | 02_ps3d/original_py/06_ps3d.py:108-142 | the window is spaced seg_length apart from a first z in (-seg_length, 0], and after the reverse the nearest point is last |
| Road02Py.ReversedSpacing | 02_ps3d/original_py/06_ps3d.py:142 | after reversal the last entry is the nearest point and z falls by seg_length per entry |
| Road02Py.Gwk.constructor | 02_ps3d/original_py/06_ps3d.py:19-80 | starts at camera 0 with seg_max 195 and segdata the expansion of the table |
| Road02Py.Gwk.Render | 02_ps3d/original_py/06_ps3d.py:93-150 | the camera steps and wraps and the returned list is the reversed window |
| Road02Py.Gwk.MoveCamera | 02_ps3d/original_py/06_ps3d.py:96-99 | the camera advances by spd and wraps at the course length |
| Road02Py.Gwk.SegIndex | 02_ps3d/original_py/06_ps3d.py:101-106 | computes the camera's segment index with Python `%` |
| Road02Py.Gwk.RecordWindow | 02_ps3d/original_py/06_ps3d.py:122-131 | every point is the projected point after k steps |
| Road03C.Window | 03_ps3d_tex/03_ps3d_tex.c:294-344 | the C 03 window has VIEW_DIST banded points |
| Road03C.WindowSpaced | 03_ps3d_tex/03_ps3d_tex.c:319-343 | spaced seg_length apart from a first z in (-seg_length, 0], with band attribute 0..7 that is 7 iff the visited index is a multiple of 8 |
| Road03C.Gwk.constructor | 03_ps3d_tex/03_ps3d_tex.c:188-217 | starts at camera 0 and background 0 with seg_max 195, road_y -8 and road_w 15, and the table expanded |
| Road03C.Gwk.ExpandSegdata | 03_ps3d_tex/03_ps3d_tex.c:156-186 | every counted segment is the expansion of the table |
| Road03C.Gwk.WriteSegment | 03_ps3d_tex/03_ps3d_tex.c:172-183 | writes segment k with its expansion and leaves the others |
| Road03C.Gwk.Update | 03_ps3d_tex/03_ps3d_tex.c:294-344 | camera step, background scroll from the camera's segment, and dt the banded window |
| Road03C.Gwk.MoveCamera | 03_ps3d_tex/03_ps3d_tex.c:296-301 | the camera advances by spd and wraps |
| Road03C.Gwk.SegIndex | 03_ps3d_tex/03_ps3d_tex.c:304-310 | computes the camera's segment index |
| Road03C.Gwk.UpdateBgPos | 03_ps3d_tex/03_ps3d_tex.c:219-252 | bg_x and bg_y become the C scroll functions of the old values |
| Road03C.Gwk.RecordWindow | 03_ps3d_tex/03_ps3d_tex.c:329-343 | every dt[k] is the banded projected point after k steps |
| Road03Py.Window | 03_ps3d_tex/original_py/09_ps3d_tex.py:207-248 | the Python 03 window has view_distance banded points |
| Road03Py.WindowSpaced | 03_ps3d_tex/original_py/09_ps3d_tex.py:226-246 | spaced seg_length apart from a first z in (-seg_length, 0], with band 7 - i % 8 |
| Road03Py.Gwk.constructor | 03_ps3d_tex/original_py/09_ps3d_tex.py:21-79 | starts at camera 0 and background 0, road_h -8, road_w 15, seg_max 195, table expanded |
| Road03Py.Gwk.Update | 03_ps3d_tex/original_py/09_ps3d_tex.py:207-248 | camera step, Python background scroll, and dt the banded window |
| Road03Py.Gwk.MoveCamera | 03_ps3d_tex/original_py/09_ps3d_tex.py:208-211 | the camera advances by spd and wraps |
| Road03Py.Gwk.SegIndex | 03_ps3d_tex/original_py/09_ps3d_tex.py:213-218 | computes the camera's segment index with Python `%` |
| Road03Py.Gwk.UpdateBgPos | 03_ps3d_tex/original_py/09_ps3d_tex.py:145-168 | bg_x and bg_y become the Python scroll functions of the old values |
| Road03Py.Gwk.RecordWindow | 03_ps3d_tex/original_py/09_ps3d_tex.py:237-246 | every entry is the banded projected point after k steps, using road_h |
| Road04C.FlagStep | 04_ps3d_bb/04_ps3d_bb.c:1032-1036 | flagging one more car extends the OR of all cars' flags |
| Road04C.WriteBackStep | 04_ps3d_bb/04_ps3d_bb.c:940-942 | one more recorded point extends the write-back of x, y and cleared flags |
| Road04C.FrameStep | 04_ps3d_bb/04_ps3d_bb.c:926-1037 | the write-back followed by car flagging is the framed segment, leaving each fixed part |
| Road04C.Gwk.constructor | 04_ps3d_bb/04_ps3d_bb.c:387-408 | the constants of init_work_first with step 0 and the random cursor at its start |
| Road04C.Gwk.InitWork | 04_ps3d_bb/04_ps3d_bb.c:410-448 | resets the scalars, places the four cars, draws a random course and expands it, leaving a valid work record |
| Road04C.Gwk.ResetScalars | 04_ps3d_bb/04_ps3d_bb.c:412-425 | step, camera, laps, fade, background and angle reset; spd = spd_max_m |
| Road04C.Gwk.InitCourse | 04_ps3d_bb/04_ps3d_bb.c:438-447 | the course is GenC at the cursor and segdata its expansion |
| Road04C.Gwk.DrawCourse | 04_ps3d_bb/04_ps3d_bb.c:438-445 | draws the runs, and seg_max and seg_total_length match them |
| Road04C.Gwk.InitCars | 04_ps3d_bb/04_ps3d_bb.c:427-435 | the cars become the four initial cars |
| Road04C.Gwk.CountSegMax | 04_ps3d_bb/04_ps3d_bb.c:441-445 | seg_max is the total count of the runs and seg_total_length is seg_length * seg_max |
| Road04C.Gwk.Rand | 04_ps3d_bb/04_ps3d_bb.c:673 | `rand() % n` takes the next number of the stream |
| Road04C.Gwk.RandomTree | 04_ps3d_bb/04_ps3d_bb.c:672-678 | the in-place tree draw is Billboard.RandomTree |
| Road04C.Gwk.SlopeTree | 04_ps3d_bb/04_ps3d_bb.c:770-777 | the in-place slope tree draw is Billboard.SlopeTree |
| Road04C.Gwk.SetBillboard | 04_ps3d_bb/04_ps3d_bb.c:661-809 | the C `set_billboard` computes exactly Billboard.SetBillboard and advances the cursor likewise |
| Road04C.Gwk.SignedDraw | 04_ps3d_bb/04_ps3d_bb.c:530-549 | the curve/pitch draw is CourseGen.SignedDraw |
| Road04C.Gwk.PickZone | 04_ps3d_bb/04_ps3d_bb.c:551-563 | the table loop is CourseGen.PickZone on the C table |
| Road04C.Gwk.DrawRun | 04_ps3d_bb/04_ps3d_bb.c:530-571 | one random run is CourseGen.Draft on the C table |
| Road04C.Gwk.NextRun | 04_ps3d_bb/04_ps3d_bb.c:483-597 | one loop iteration advances GenLoopC by exactly one run, and stops exactly at the last index |
| Road04C.Gwk.InitCourseRandom | 04_ps3d_bb/04_ps3d_bb.c:472-599 | the runs written into segdata_src, and the cursor after them, are GenC |
| Road04C.Gwk.WriteSegment | 04_ps3d_bb/04_ps3d_bb.c:632-655 | writes the expanded segment k and advances the cursor by that billboard's draws |
| Road04C.Gwk.ExpandRun | 04_ps3d_bb/04_ps3d_bb.c:632-656 | writes one run's segments in order, leaves earlier ones, and advances the cursor by the run's draws |
| Road04C.Gwk.ExpandSegdata | 04_ps3d_bb/04_ps3d_bb.c:613-659 | the first seg_max entries become Scenery.Expanded and the cursor moves past all billboard draws |
| Road04C.Gwk.Update | 04_ps3d_bb/04_ps3d_bb.c:842-951 | one frame: the phase follows SwitchC; the camera (restarted at 0 after step 0) steps and counts a lap when it wraps; the background scrolls from its old values (0 after step 0) by the camera segment's curve and pitch; the sway phase advances by spd; dt is the window at the new camera; every car is moved from its old (or initial) state; every segment is framed from its old (or freshly expanded) state; the work record stays valid |
| Road04C.Gwk.SessionStep | 04_ps3d_bb/04_ps3d_bb.c:844-881 | the phase follows SwitchC; from step 0 a fresh course and fresh cars are set up, with background and sway at 0 and segdata the expansion; otherwise camera, cars, background, sway, segdata and course are kept |
| Road04C.Gwk.PhaseStep | 04_ps3d_bb/04_ps3d_bb.c:852-878 | steps 1..3 of the machine follow SwitchC |
| Road04C.Gwk.Drive | 04_ps3d_bb/04_ps3d_bb.c:887-950 | speed at spd_max_m, camera step and lap count, background from the camera's segment, dt the window, cars moved, every segment framed |
| Road04C.Gwk.Advance | 04_ps3d_bb/04_ps3d_bb.c:887-912 | speed, camera, lap count, segment index and background scroll of one frame |
| Road04C.Gwk.Render | 04_ps3d_bb/04_ps3d_bb.c:914-950 | dt the window, angle advanced by spd, cars moved and every segment framed |
| Road04C.Gwk.RenderWindow | 04_ps3d_bb/04_ps3d_bb.c:915-948 | dt is the window and each segment in it holds its recorded point with flags cleared; others untouched |
| Road04C.Gwk.MoveCamera | 04_ps3d_bb/04_ps3d_bb.c:891-896 | the camera advances and laps counts the wrap |
| Road04C.Gwk.SegIndex | 04_ps3d_bb/04_ps3d_bb.c:899-905 | computes the camera's segment index |
| Road04C.Gwk.UpdateBgPos | 04_ps3d_bb/04_ps3d_bb.c:953-986 | bg_x and bg_y become the C scroll functions of the old values |
| Road04C.Gwk.RecordWindow | 04_ps3d_bb/04_ps3d_bb.c:926-948 | all VIEW_DIST points are recorded and written back |
| Road04C.Gwk.RecordStep | 04_ps3d_bb/04_ps3d_bb.c:926-948 | one loop iteration extends the recorded prefix and the recurrence by one |
| Road04C.Gwk.RecordPoint | 04_ps3d_bb/04_ps3d_bb.c:928-947 | dt[k] is the projected point of step k, segment (idx + k) % seg_max gets x, y and cleared flags, nothing else changes |
| Road04C.Gwk.MoveCarAt | 04_ps3d_bb/04_ps3d_bb.c:994-1030 | car c moves by Traffic.MoveCar and no other car changes |
| Road04C.Gwk.FlagCar | 04_ps3d_bb/04_ps3d_bb.c:1032-1036 | only the car's segment gains its kind's bit |
| Road04C.Gwk.UpdateCars | 04_ps3d_bb/04_ps3d_bb.c:988-1037 | angle advances by spd, every car moves, and every segment's flags gain exactly its cars' bits |
| Road04C.Gwk.CarStep | 04_ps3d_bb/04_ps3d_bb.c:992-1037 | one iteration moves car c and ORs its bit into its segment |
| Road04Py.Accelerated | 04_ps3d_bb/original_py/10_ps3d_tex.py:628-630 | the speed never passes the cap, never gains more than spda, is the cap or spd + spda, and does not slow down while below the cap |
| Road04Py.SpeedRamp | 04_ps3d_bb/original_py/10_ps3d_tex.py:628-630 | from rest the speed after n <= 72 frames is n * spda |
| Road04Py.SpeedCapped | 04_ps3d_bb/original_py/10_ps3d_tex.py:628-630 | from the 72nd frame on the speed is spd_max_m = 6.4 |
| Road04Py.NextSegment | 04_ps3d_bb/original_py/10_ps3d_tex.py:110-128 | appending the next built segment extends the prefix of the expansion by one |
| Road04Py.Gwk.constructor | 04_ps3d_bb/original_py/10_ps3d_tex.py:38-68 | the constants, then init_work: step 0, fadev 1, speed 0, camera 0, the course GenPy from the stream's start and its expansion |
| Road04Py.Gwk.InitWork | 04_ps3d_bb/original_py/10_ps3d_tex.py:70-87 | resets the scalars, places the four cars, draws and expands a random course, leaving a valid work record |
| Road04Py.Gwk.ResetScalars | 04_ps3d_bb/original_py/10_ps3d_tex.py:71-78 | step, camera, speed, laps, fade, background and angle reset |
| Road04Py.Gwk.InitCars | 04_ps3d_bb/original_py/10_ps3d_tex.py:80-82 | the cars become the four initial cars |
| Road04Py.Gwk.InitCourse | 04_ps3d_bb/original_py/10_ps3d_tex.py:85-87 | the course is GenPy at the cursor and segdata its expansion |
| Road04Py.Gwk.DrawCourse | 04_ps3d_bb/original_py/10_ps3d_tex.py:85-86 | draws the runs; seg_max is their total, at least 443, and seg_total_length is 20 * seg_max |
| Road04Py.Gwk.Rand | 04_ps3d_bb/original_py/10_ps3d_tex.py:337 | `random.randint(0, n - 1)` takes the next number of the stream |
| Road04Py.Gwk.SignedDraw | 04_ps3d_bb/original_py/10_ps3d_tex.py:335-349 | the curve/pitch draw is CourseGen.SignedDraw |
| Road04Py.Gwk.PickZone | 04_ps3d_bb/original_py/10_ps3d_tex.py:352-359 | the table loop is CourseGen.PickZone on the Python table |
| Road04Py.Gwk.DrawRun | 04_ps3d_bb/original_py/10_ps3d_tex.py:334-365 | one random run is CourseGen.Draft on the Python table |
| Road04Py.Gwk.AppendDrawn | 04_ps3d_bb/original_py/10_ps3d_tex.py:334-380 | one drawing iteration advances GenLoopPy by one index |
| Road04Py.Gwk.InitCourseRandom | 04_ps3d_bb/original_py/10_ps3d_tex.py:304-380 | segdata_src and the cursor after it are GenPy |
| Road04Py.Gwk.CountSegNumber | 04_ps3d_bb/original_py/10_ps3d_tex.py:89-94 | seg_max is the total count and seg_total_length is seg_length * seg_max |
| Road04Py.Gwk.AppendSegment | 04_ps3d_bb/original_py/10_ps3d_tex.py:111-128 | appends the next segment of the expansion and advances the cursor by its billboard's draws |
| Road04Py.Gwk.ExpandRun | 04_ps3d_bb/original_py/10_ps3d_tex.py:110-128 | appends one run's segments as a further prefix of the expansion |
| Road04Py.Gwk.ExpandSegdata | 04_ps3d_bb/original_py/10_ps3d_tex.py:96-128 | segdata becomes Scenery.Expanded and the cursor moves past all billboard draws |
| Road04Py.Gwk.Update | 04_ps3d_bb/original_py/10_ps3d_tex.py:601-690 | one frame: the phase follows SwitchPy; speed accelerates from its old value (0 after step 0) toward the cap; camera step and lap count; background scroll and sway phase from their old values (0 after step 0); dt the window; cars moved; every segment framed from its old (or freshly expanded) state; the work record stays valid |
| Road04Py.Gwk.SessionStep | 04_ps3d_bb/original_py/10_ps3d_tex.py:602-626 | the phase follows SwitchPy; from step 0 a fresh course, speed 0, camera 0, background and sway at 0, segdata the expansion and fresh cars, otherwise all of them kept |
| Road04Py.Gwk.PhaseStep | 04_ps3d_bb/original_py/10_ps3d_tex.py:607-626 | steps 1..4 follow SwitchPy |
| Road04Py.Gwk.Drive | 04_ps3d_bb/original_py/10_ps3d_tex.py:628-690 | acceleration, camera step and lap count, background scroll, dt the window, cars moved, every segment framed |
| Road04Py.Gwk.Advance | 04_ps3d_bb/original_py/10_ps3d_tex.py:628-649 | speed, camera, lap count, segment index and background scroll of one frame |
| Road04Py.Gwk.MoveCamera | 04_ps3d_bb/original_py/10_ps3d_tex.py:633-636 | the camera advances and laps counts the wrap |
| Road04Py.Gwk.SegIndex | 04_ps3d_bb/original_py/10_ps3d_tex.py:639-643 | computes the camera's segment index with Python `%` |
| Road04Py.Gwk.UpdateBg | 04_ps3d_bb/original_py/10_ps3d_tex.py:461-486 | bg_x and bg_y become the Python scroll functions of the old values |
| Road04Py.Gwk.ScrollBgY | 04_ps3d_bb/original_py/10_ps3d_tex.py:467-485 | bg_y becomes Background.NextBgY of its old value |
| Road04Py.Gwk.Render | 04_ps3d_bb/original_py/10_ps3d_tex.py:651-690 | dt the window, angle advanced by spd, cars moved, every segment framed |
| Road04Py.Gwk.RenderWindow | 04_ps3d_bb/original_py/10_ps3d_tex.py:651-688 | dt is the window and each segment in it holds its recorded point with flags cleared; others untouched |
| Road04Py.Gwk.RecordWindow | 04_ps3d_bb/original_py/10_ps3d_tex.py:662-688 | all view_distance points are recorded and written back |
| Road04Py.Gwk.RecordStep | 04_ps3d_bb/original_py/10_ps3d_tex.py:663-688 | one iteration extends the recorded prefix and the recurrence by one |
| Road04Py.Gwk.RecordPoint | 04_ps3d_bb/original_py/10_ps3d_tex.py:664-688 | appends the projected point of step k and writes x, y and cleared flags to its segment only |
| Road04Py.Gwk.MoveCarAt | 04_ps3d_bb/original_py/10_ps3d_tex.py:534-559 | car c moves by Traffic.MoveCar and no other car changes |
| Road04Py.Gwk.FlagCar | 04_ps3d_bb/original_py/10_ps3d_tex.py:561-564 | only the car's segment gains its kind's bit |
| Road04Py.Gwk.UpdateCars | 04_ps3d_bb/original_py/10_ps3d_tex.py:529-564 | angle advances by spd, every car moves, every segment's flags gain exactly its cars' bits |
| Road04Py.Gwk.CarStep | 04_ps3d_bb/original_py/10_ps3d_tex.py:533-564 | one iteration moves car c and ORs its bit into its segment |

Notes on what the code does:

- The C generator defers a sharp curve behind its arrow run. It drafts such a run only
  while `j < len - 2`, so the deferred run is always written: `CourseGen.GenCShape`.
- The projection adds the curve of segment `(idx + k) % seg_max` after step k, as
  `02_ps3d.c:189-191` does. It does not use the following segment.
- In 03 the C update draws with a local `road_y = -10.0`
  (`03_ps3d_tex/03_ps3d_tex.c:329`), not with the field `gw.road_y = -8.0` it sets in
  `init_work`. The Python original uses `gw.road_h = -8.0`. `Road03C.Window` uses -10 and
  `Road03Py.Window` uses -8.
- In 04, C sets `spd_max_m = spd_max * 0.35` and starts `fadev` at 0 in `init_work`.
  Python uses 0.4 and 1.0, and accelerates. Each model keeps its own constants.

## Left out

- Drawing is not modelled: OpenGL, GLFW, textures, sprites, the fade overlay, `draw_*`,
  `load_image` and `init_tex_pos`. Their only effect is on the screen.
- Frame timing, the fps counter, the keyboard and resize callbacks and `main` are not
  modelled. They are I/O.
- `04_ps3d_bb/images/csv2c.py` is not part of this model. It is an offline generator of
  texture tables.
- The fixed debug courses (`init_course_debug`, and `init_course` in the 04 Python) are
  not modelled. Neither program calls them.
- `srand(time(NULL))` and Python's generator seed are replaced by the stream `rand`, a
  parameter of the constructor. `sin` and `math.sin` are an unconstrained parameter too.
  The 150..450 band of car kinds 0 and 1 in `Traffic.MoveCar` is stated under
  `Traffic.SinBounded`.
- Floats are exact reals. Single-precision rounding, and the float accumulation of `z`,
  `fadev` and the camera, are not modelled.
- The C 04 build with `ACCEL` on is not modelled. The source sets `ACCEL` to 0, so the
  speed is held at `spd_max_m`.
- Road02Py.Reversed: its own contract states only the length. The order is stated by
  `Road02Py.ReversedTwice` and `Road02Py.ReversedSpacing`.
- Road04C.Gwk.Render and Road04Py.Gwk.Render: each ensures only the parts of `Valid()` it
  touches. `Drive` re-establishes `Valid()` from them and `Advance`.
- Road04C.Gwk.Update: of the course it states only that `seg_max` is kept after step 0.
  The regeneration at step 0 and the unchanged run table otherwise are stated by
  `Road04C.Gwk.SessionStep`.
- Road04Py.Gwk.Update: the same, with `Road04Py.Gwk.SessionStep` stating them.
- Road03C.Gwk.UpdateBgPos, Road03Py.Gwk.UpdateBgPos, Road04C.Gwk.UpdateBgPos and
  Road04Py.Gwk.UpdateBg: their contracts state only the two scroll values. The `Update`
  of each program states them together with the rest of the work record.
- The `if idx < 0: idx += seg_max` correction after Python's `%` can never fire. The model
  keeps it as a branch that no state reaches.
