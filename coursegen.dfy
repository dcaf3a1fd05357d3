/** `init_course_random` of the 04 versions. A course is a list of runs
    `{cnt, curve, pitch, bb}`: run 0 is a straight without scenery, run 1 passes under the
    start beam, the last run is a straight lined with trees, and every run between them is
    drawn at random (curve, pitch, then a billboard zone and a count from a weighted table).
    A sharp curve (|curve| > 1) gets an arrow-sign run in front of it. The C port defers
    the sharp run by one iteration through `next_cnt`/`next_curve`/...; the Python original
    appends both runs in the same iteration. */
module CourseGen {
  import opened Billboard
  import Course

  /** One source run of the 04 versions (`SEGSRC` / the `segdata_src` dictionaries). */
  datatype SegSrc = SegSrc(cnt: nat, curve: real, pitch: real, bb: Zone)

  /** The geometric part of a run, which is all the expansion of curve and pitch reads. */
  function Shapes(srcs: seq<SegSrc>): (r: seq<Course.Run>)
    ensures |r| == |srcs|
    ensures forall i :: 0 <= i < |srcs| ==> r[i] == Course.Run(srcs[i].cnt, srcs[i].curve, srcs[i].pitch)
  {
    seq(|srcs|, i requires 0 <= i < |srcs| => Course.Run(srcs[i].cnt, srcs[i].curve, srcs[i].pitch))
  }

  const RunStart := SegSrc(25, 0.0, 0.0, None)
  const RunBeam := SegSrc(28, 0.0, 0.0, Beam)
  const RunFinish := SegSrc(50, 0.0, 0.0, Tree)
  /** The cleared lookahead slot of the C port (`next_cnt = 0`, ...). */
  const NoRun := SegSrc(0, 0.0, 0.0, None)

  predicate Sharp(curve: real) { curve > 1.0 || curve < -1.0 }

  predicate IsArrow(bb: Zone) { bb == ArrowR || bb == ArrowL }

  predicate IsSlope(bb: Zone) { bb == SlopeL || bb == SlopeR }

  /** The road-sign run placed in front of a sharp curve: ARROWL for a curve to the right. */
  function ArrowRun(curve: real): SegSrc
  {
    SegSrc(20, 0.0, 0.0, if curve > 1.0 then ArrowL else ArrowR)
  }

  /** One row of the billboard table: `{per, kind, min, rnd}`. */
  datatype Row = Row(per: int, kind: Zone, min: nat, rnd: nat)

  /** `bb_set_tbl` of the C port. */
  const TableC: seq<Row> := [
    Row(10, None, 10, 30), Row(50, Tree, 10, 120), Row(60, Grass, 10, 100),
    Row(80, House, 20, 40), Row(90, SlopeL, 20, 40), Row(100, SlopeR, 20, 40)]

  /** `tbl` of the Python original. */
  const TablePy: seq<Row> := [
    Row(10, None, 20, 20), Row(50, Tree, 30, 150), Row(60, Grass, 30, 100),
    Row(80, House, 50, 30), Row(90, SlopeL, 30, 30), Row(100, SlopeR, 30, 30)]

  /** A table every draw `r < 100` finds a row in, with a positive spread on every row. */
  predicate WellFormed(table: seq<Row>)
  {
    |table| > 0 && table[|table| - 1].per >= 99 &&
    forall t :: 0 <= t < |table| ==> table[t].rnd > 0
  }

  /** Every row draws a count in `[lo, hi]` and names no arrow zone. */
  predicate RowsFit(table: seq<Row>, lo: nat, hi: nat)
  {
    forall t :: 0 <= t < |table| ==>
      lo <= table[t].min && table[t].min + table[t].rnd <= hi + 1 && !IsArrow(table[t].kind)
  }

  /** The table loop from row `ti` on: the first row whose threshold `per` is at least `r`
      gives the zone and a count `min + rand() % rnd` (one draw); when no row matches the
      run keeps the defaults NONE and 10 and nothing is drawn. */
  function PickZone(rand: nat -> nat, pos: nat, table: seq<Row>, r: int, ti: nat): (res: (Zone, nat, nat))
    requires ti <= |table| && forall t :: 0 <= t < |table| ==> table[t].rnd > 0
    ensures res.2 == pos || res.2 == pos + 1
    ensures ti < |table| && r <= table[ti].per ==> res.0 == table[ti].kind && res.2 == pos + 1
    decreases |table| - ti
  {
    if ti == |table| then (None, 10, pos)
    else if r <= table[ti].per then (table[ti].kind, table[ti].min + Roll(rand, pos, table[ti].rnd), pos + 1)
    else PickZone(rand, pos, table, r, ti + 1)
  }

  /** When some row from `ti` on matches, the lookup never falls through: its zone and
      count come from a matching row, so they fit every bound the rows share. */
  lemma {:induction false} PickZoneFits(rand: nat -> nat, pos: nat, table: seq<Row>, r: int, ti: nat, lo: nat, hi: nat)
    requires WellFormed(table) && RowsFit(table, lo, hi)
    requires ti < |table| && r <= table[|table| - 1].per
    ensures var res := PickZone(rand, pos, table, r, ti);
            lo <= res.1 <= hi && !IsArrow(res.0) && res.2 == pos + 1
    decreases |table| - ti
  {
    if r > table[ti].per {
      PickZoneFits(rand, pos, table, r, ti + 1, lo, hi);
    }
  }

  lemma TablesWellFormed()
    ensures WellFormed(TableC) && RowsFit(TableC, 10, 129)
    ensures WellFormed(TablePy) && RowsFit(TablePy, 20, 179)
  {
  }

  /** A draw `Roll(.., 100) <= 60` yields a magnitude `Roll(.., n) * 0.01`, negated when the
      first draw is at least 30; otherwise the value stays 0 and one draw is used. */
  function SignedDraw(rand: nat -> nat, pos: nat, n: nat): (res: (real, nat))
    requires n > 0
    ensures -((n - 1) as real) * 0.01 <= res.0 <= (n - 1) as real * 0.01
    ensures res.1 == pos + 1 || res.1 == pos + 2
  {
    var r := Roll(rand, pos, 100);
    if r <= 60 then
      var v := Roll(rand, pos + 1, n) as real * 0.01;
      (if r >= 30 then -v else v, pos + 2)
    else (0.0, pos + 1)
  }

  /** One random run: curve, pitch, zone and count from `table`, with the slope-zone halving
      of a curve beyond ±2 and a pitch beyond ±0.5. */
  function Draft(rand: nat -> nat, pos: nat, table: seq<Row>): (res: (SegSrc, nat))
    requires WellFormed(table)
    ensures -3.0 < res.0.curve < 3.0 && -0.4 < res.0.pitch < 0.4
    ensures IsSlope(res.0.bb) ==> -2.0 <= res.0.curve <= 2.0
    ensures res.1 > pos
  {
    var (curve, p1) := SignedDraw(rand, pos, 300);
    var (pitch, p2) := SignedDraw(rand, p1, 40);
    var (bb, count, p3) := PickZone(rand, p2 + 1, table, Roll(rand, p2, 100), 0);
    var slope := bb == SlopeL || bb == SlopeR;
    var curve' := if slope && (curve < -2.0 || curve > 2.0) then curve * 0.5 else curve;
    var pitch' := if slope && (pitch < -0.5 || pitch > 0.5) then pitch * 0.5 else pitch;
    (SegSrc(count, curve', pitch', bb), p3)
  }

  /** Proof helper: `Draft` assembled from its draws, the two signed draws, the zone
      lookup and the halving on slope zones. */
  lemma DraftOf(rand: nat -> nat, pos: nat, table: seq<Row>, curve: real, p1: nat, pitch: real, p2: nat,
                bb: Zone, count: nat, p3: nat, curve': real, pitch': real)
    requires WellFormed(table)
    requires (curve, p1) == SignedDraw(rand, pos, 300) && (pitch, p2) == SignedDraw(rand, p1, 40)
    requires (bb, count, p3) == PickZone(rand, p2 + 1, table, Roll(rand, p2, 100), 0)
    requires curve' == if (bb == SlopeL || bb == SlopeR) && (curve < -2.0 || curve > 2.0) then curve * 0.5 else curve
    requires pitch' == if (bb == SlopeL || bb == SlopeR) && (pitch < -0.5 || pitch > 0.5) then pitch * 0.5 else pitch
    ensures Draft(rand, pos, table) == (SegSrc(count, curve', pitch', bb), p3)
  {
  }

  lemma DraftFits(rand: nat -> nat, pos: nat, table: seq<Row>, lo: nat, hi: nat)
    requires WellFormed(table) && RowsFit(table, lo, hi)
    ensures lo <= Draft(rand, pos, table).0.cnt <= hi
    ensures !IsArrow(Draft(rand, pos, table).0.bb)
  {
    var (curve, p1) := SignedDraw(rand, pos, 300);
    var (pitch, p2) := SignedDraw(rand, p1, 40);
    PickZoneFits(rand, p2 + 1, table, Roll(rand, p2, 100), 0, lo, hi);
  }

  /** A run whose values lie in the ranges the generator draws from. */
  predicate Bounded(s: SegSrc, lo: nat, hi: nat)
  {
    lo <= s.cnt <= hi && -3.0 < s.curve < 3.0 && -0.4 < s.pitch < 0.4 &&
    (IsSlope(s.bb) ==> -2.0 <= s.curve <= 2.0)
  }

  /** An arrow run at `i` is directly followed by the sharp run it announces. */
  predicate ArrowOk(runs: seq<SegSrc>, i: nat)
    requires i < |runs|
  {
    IsArrow(runs[i].bb) ==>
      i + 1 < |runs| && Sharp(runs[i + 1].curve) && runs[i] == ArrowRun(runs[i + 1].curve)
  }

  /** A sharp run at `i` is directly preceded by its arrow run, unless `i` is exempt. */
  predicate SharpOk(runs: seq<SegSrc>, i: nat, exempt: int)
    requires i < |runs|
  {
    Sharp(runs[i].curve) ==> i == exempt || (0 < i && runs[i - 1] == ArrowRun(runs[i].curve))
  }

  /** Arrow signs and sharp curves come in pairs: every arrow run is directly followed by
      the sharp run it announces, and every sharp run is directly preceded by its arrow,
      except (when `exempt` is a valid index) the run at `exempt`. */
  predicate Signposted(runs: seq<SegSrc>, exempt: int)
  {
    forall i :: 0 <= i < |runs| ==> ArrowOk(runs, i) && SharpOk(runs, i, exempt)
  }

  /** The shape both generators promise: fixed first, second and last runs, and every run
      within the drawn ranges. */
  predicate Framed(runs: seq<SegSrc>, lo: nat, hi: nat)
  {
    |runs| >= 3 && runs[0] == RunStart && runs[1] == RunBeam && runs[|runs| - 1] == RunFinish &&
    AllBounded(runs, lo, hi)
  }

  predicate AllBounded(runs: seq<SegSrc>, lo: nat, hi: nat)
  {
    forall i :: 0 <= i < |runs| ==> Bounded(runs[i], lo, hi)
  }

  /** Appending a run that is no arrow, and sharp only at the exempt index, keeps the pairing. */
  lemma SignpostedPlain(acc: seq<SegSrc>, d: SegSrc, exempt: int)
    requires Signposted(acc, exempt) && !IsArrow(d.bb)
    requires Sharp(d.curve) ==> |acc| == exempt
    ensures Signposted(acc + [d], exempt)
  {
    var runs := acc + [d];
    forall i | 0 <= i < |runs| ensures ArrowOk(runs, i) && SharpOk(runs, i, exempt)
    {
      if i < |acc| {
        assert ArrowOk(acc, i) && SharpOk(acc, i, exempt);
        assert runs[i] == acc[i];
        if i + 1 < |acc| { assert runs[i + 1] == acc[i + 1]; }
        if 0 < i { assert runs[i - 1] == acc[i - 1]; }
      } else {
        assert runs[i] == d;
      }
    }
  }

  /** Appending a sharp run together with the arrow run that announces it keeps the pairing. */
  lemma SignpostedPair(acc: seq<SegSrc>, d: SegSrc, exempt: int)
    requires Signposted(acc, exempt) && !IsArrow(d.bb) && Sharp(d.curve)
    ensures Signposted(acc + [ArrowRun(d.curve), d], exempt)
  {
    var runs := acc + [ArrowRun(d.curve), d];
    forall i | 0 <= i < |runs| ensures ArrowOk(runs, i) && SharpOk(runs, i, exempt)
    {
      if i < |acc| {
        assert ArrowOk(acc, i) && SharpOk(acc, i, exempt);
        assert runs[i] == acc[i];
        if i + 1 < |acc| { assert runs[i + 1] == acc[i + 1]; }
        if 0 < i { assert runs[i - 1] == acc[i - 1]; }
      } else if i == |acc| {
        assert runs[i] == ArrowRun(d.curve) && runs[i + 1] == d;
      } else {
        assert runs[i] == d && runs[i - 1] == ArrowRun(d.curve);
      }
    }
  }

  lemma BoundedAppend(acc: seq<SegSrc>, extra: seq<SegSrc>, lo: nat, hi: nat)
    requires AllBounded(acc, lo, hi) && AllBounded(extra, lo, hi)
    ensures AllBounded(acc + extra, lo, hi)
  {
    forall i | 0 <= i < |acc + extra| ensures Bounded((acc + extra)[i], lo, hi)
    {
      if i < |acc| { assert (acc + extra)[i] == acc[i]; } else { assert (acc + extra)[i] == extra[i - |acc|]; }
    }
  }

  // ---------------------------------------------------------------- C port

  /** The C loop from iteration `j` on, with `acc` the runs written so far, `next` the
      lookahead slot and `pos` the random cursor. */
  function GenLoopC(rand: nat -> nat, len: nat, j: nat, acc: seq<SegSrc>, next: SegSrc, pos: nat): (res: (seq<SegSrc>, nat))
    decreases len - j, 1
  {
    if j >= len then (acc, pos)
    else if j == 0 then GenLoopC(rand, len, j + 1, acc + [RunStart], next, pos)
    else if j == 1 then GenLoopC(rand, len, j + 1, acc + [RunBeam], next, pos)
    else if j >= len - 1 then (acc + [RunFinish], pos)
    else if next.cnt > 0 then GenLoopC(rand, len, j + 1, acc + [next], NoRun, pos)
    else GenDrawC(rand, len, j, acc, pos)
  }

  /** An iteration of the C loop with nothing pending: a run is drawn; a sharp one before
      index `len - 2` is deferred behind its arrow run. */
  function GenDrawC(rand: nat -> nat, len: nat, j: nat, acc: seq<SegSrc>, pos: nat): (res: (seq<SegSrc>, nat))
    requires j < len
    decreases len - j, 0
  {
    var (d, p) := Draft(rand, pos, TableC);
    if j < len - 2 && Sharp(d.curve) then GenLoopC(rand, len, j + 1, acc + [ArrowRun(d.curve)], d, p)
    else GenLoopC(rand, len, j + 1, acc + [d], NoRun, p)
  }

  /** The number of runs a random course gets: `segdata_src_len = 20 + rand() % 25` in C and
      `segm_max = 20 + random.randint(0, 24)` in Python, one draw of 20..44 in both. */
  function CourseLen(rand: nat -> nat, pos: nat): (len: nat)
    ensures 20 <= len <= 44
  {
    20 + Roll(rand, pos, 25)
  }

  /** `init_course_random` of the C port: the runs and the random cursor after them. */
  function GenC(rand: nat -> nat, pos: nat): (seq<SegSrc>, nat)
  {
    GenLoopC(rand, CourseLen(rand, pos), 0, [], NoRun, pos + 1)
  }

  /** What holds between iterations of the C loop once the two fixed runs are written:
      the runs written so far, followed by the pending run when there is one, are paired
      and bounded. */
  predicate LoopInvC(len: nat, j: nat, acc: seq<SegSrc>, next: SegSrc)
  {
    2 <= j <= len - 1 && |acc| == j && acc[0] == RunStart && acc[1] == RunBeam &&
    AllBounded(acc, 10, 129) &&
    (next.cnt == 0 ==> Signposted(acc, len - 2)) &&
    (next.cnt > 0 ==>
       j <= len - 2 && Bounded(next, 10, 129) && !IsArrow(next.bb) && Signposted(acc + [next], len - 2))
  }

  lemma InvCPending(len: nat, j: nat, acc: seq<SegSrc>, next: SegSrc)
    requires LoopInvC(len, j, acc, next) && next.cnt > 0
    ensures LoopInvC(len, j + 1, acc + [next], NoRun)
  {
    BoundedAppend(acc, [next], 10, 129);
  }

  lemma InvCDraw(len: nat, j: nat, acc: seq<SegSrc>, d: SegSrc)
    requires LoopInvC(len, j, acc, NoRun) && j < len - 1
    requires Bounded(d, 10, 129) && !IsArrow(d.bb)
    ensures j < len - 2 && Sharp(d.curve) ==> LoopInvC(len, j + 1, acc + [ArrowRun(d.curve)], d)
    ensures !(j < len - 2 && Sharp(d.curve)) ==> LoopInvC(len, j + 1, acc + [d], NoRun)
  {
    if j < len - 2 && Sharp(d.curve) {
      var acc' := acc + [ArrowRun(d.curve)];
      BoundedAppend(acc, [ArrowRun(d.curve)], 10, 129);
      SignpostedPair(acc, d, len - 2);
      assert acc' + [d] == acc + [ArrowRun(d.curve), d];
    } else {
      BoundedAppend(acc, [d], 10, 129);
      SignpostedPlain(acc, d, len - 2);
    }
  }

  lemma InvCFinish(len: nat, j: nat, acc: seq<SegSrc>, next: SegSrc)
    requires LoopInvC(len, j, acc, next) && j >= len - 1
    ensures var runs := acc + [RunFinish];
            |runs| == len && Framed(runs, 10, 129) && Signposted(runs, len - 2)
  {
    var runs := acc + [RunFinish];
    SignpostedPlain(acc, RunFinish, len - 2);
    BoundedAppend(acc, [RunFinish], 10, 129);
    assert runs[0] == RunStart && runs[1] == RunBeam && runs[|runs| - 1] == RunFinish;
  }

  lemma {:induction false} GenLoopCShape(rand: nat -> nat, len: nat, j: nat, acc: seq<SegSrc>, next: SegSrc, pos: nat)
    requires LoopInvC(len, j, acc, next)
    ensures var runs := GenLoopC(rand, len, j, acc, next, pos).0;
            |runs| == len && Framed(runs, 10, 129) && Signposted(runs, len - 2)
    decreases len - j
  {
    if j >= len - 1 {
      InvCFinish(len, j, acc, next);
    } else if next.cnt > 0 {
      InvCPending(len, j, acc, next);
      GenLoopCShape(rand, len, j + 1, acc + [next], NoRun, pos);
    } else {
      TablesWellFormed();
      var r := Draft(rand, pos, TableC);
      var d, p := r.0, r.1;
      DraftFits(rand, pos, TableC, 10, 129);
      InvCDraw(len, j, acc, d);
      if j < len - 2 && Sharp(d.curve) {
        assert GenLoopC(rand, len, j, acc, next, pos) == GenDrawC(rand, len, j, acc, pos)
                                                      == GenLoopC(rand, len, j + 1, acc + [ArrowRun(d.curve)], d, p);
        GenLoopCShape(rand, len, j + 1, acc + [ArrowRun(d.curve)], d, p);
      } else {
        assert GenLoopC(rand, len, j, acc, next, pos) == GenDrawC(rand, len, j, acc, pos)
                                                      == GenLoopC(rand, len, j + 1, acc + [d], NoRun, p);
        GenLoopCShape(rand, len, j + 1, acc + [d], NoRun, p);
      }
    }
  }

  /** The C generator writes exactly `segdata_src_len` runs, `20 <= len <= 44`, framed by
      the fixed runs, every count in `[10, 129]`, and every sharp curve but one at index
      `len - 2` announced by its arrow run, which the lookahead never drops. */
  lemma GenCShape(rand: nat -> nat, pos: nat)
    ensures var runs := GenC(rand, pos).0;
            |runs| == CourseLen(rand, pos) && 20 <= |runs| <= 44 &&
            Framed(runs, 10, 129) && Signposted(runs, |runs| - 2)
  {
    var len := CourseLen(rand, pos);
    var acc := [RunStart, RunBeam];
    assert [] + [RunStart] == [RunStart];
    assert GenLoopC(rand, len, 0, [], NoRun, pos + 1) == GenLoopC(rand, len, 1, [RunStart], NoRun, pos + 1);
    assert [RunStart] + [RunBeam] == acc;
    assert GenLoopC(rand, len, 1, [RunStart], NoRun, pos + 1) == GenLoopC(rand, len, 2, acc, NoRun, pos + 1);
    GenLoopCShape(rand, len, 2, acc, NoRun, pos + 1);
  }

  // ---------------------------------------------------------------- Python original

  /** The Python loop from iteration `j` on. */
  function GenLoopPy(rand: nat -> nat, segmMax: nat, j: nat, acc: seq<SegSrc>, pos: nat): (res: (seq<SegSrc>, nat))
    decreases segmMax - j, 1
  {
    if j >= segmMax then (acc, pos)
    else if j == 0 then GenLoopPy(rand, segmMax, j + 1, acc + [RunStart], pos)
    else if j == 1 then GenLoopPy(rand, segmMax, j + 1, acc + [RunBeam], pos)
    else if j >= segmMax - 1 then (acc + [RunFinish], pos)
    else GenDrawPy(rand, segmMax, j, acc, pos)
  }

  /** A drawn iteration of the Python loop: a sharp run is appended after its arrow run. */
  function GenDrawPy(rand: nat -> nat, segmMax: nat, j: nat, acc: seq<SegSrc>, pos: nat): (res: (seq<SegSrc>, nat))
    requires j < segmMax
    decreases segmMax - j, 0
  {
    var (d, p) := Draft(rand, pos, TablePy);
    GenLoopPy(rand, segmMax, j + 1, acc + (if Sharp(d.curve) then [ArrowRun(d.curve), d] else [d]), p)
  }

  /** `Gwk.init_course_random` of the Python original. */
  function GenPy(rand: nat -> nat, pos: nat): (seq<SegSrc>, nat)
  {
    GenLoopPy(rand, CourseLen(rand, pos), 0, [], pos + 1)
  }

  predicate LoopInvPy(segmMax: nat, j: nat, acc: seq<SegSrc>)
  {
    2 <= j <= segmMax - 1 && j <= |acc| <= 2 * j - 2 && acc[0] == RunStart && acc[1] == RunBeam &&
    AllBounded(acc, 20, 179) && Signposted(acc, -1)
  }

  lemma InvPyDraw(segmMax: nat, j: nat, acc: seq<SegSrc>, d: SegSrc)
    requires LoopInvPy(segmMax, j, acc) && j < segmMax - 1
    requires Bounded(d, 20, 179) && !IsArrow(d.bb)
    ensures LoopInvPy(segmMax, j + 1, acc + (if Sharp(d.curve) then [ArrowRun(d.curve), d] else [d]))
  {
    var extra := if Sharp(d.curve) then [ArrowRun(d.curve), d] else [d];
    BoundedAppend(acc, extra, 20, 179);
    if Sharp(d.curve) { SignpostedPair(acc, d, -1); } else { SignpostedPlain(acc, d, -1); }
  }

  /** What the Python generator promises of the table it builds for `segm_max`. */
  predicate ShapePy(segmMax: nat, runs: seq<SegSrc>)
  {
    segmMax <= |runs| <= 2 * segmMax - 3 && Framed(runs, 20, 179) && Signposted(runs, -1)
  }

  lemma InvPyFinish(segmMax: nat, j: nat, acc: seq<SegSrc>)
    requires LoopInvPy(segmMax, j, acc) && j >= segmMax - 1
    ensures ShapePy(segmMax, acc + [RunFinish])
  {
    var runs := acc + [RunFinish];
    SignpostedPlain(acc, RunFinish, -1);
    BoundedAppend(acc, [RunFinish], 20, 179);
    assert runs[0] == RunStart && runs[1] == RunBeam && runs[|runs| - 1] == RunFinish;
  }

  /** A drawn iteration `j` of the Python loop, unfolded at the draft `(d, p)` drawn from
      `pos`: the run goes on after its arrow run when sharp, alone otherwise. */
  lemma GenLoopPyDrawn(rand: nat -> nat, segmMax: nat, j: nat, acc: seq<SegSrc>, pos: nat, d: SegSrc, p: nat)
    requires 2 <= j < segmMax - 1 && (d, p) == Draft(rand, pos, TablePy)
    ensures GenLoopPy(rand, segmMax, j, acc, pos) ==
            GenLoopPy(rand, segmMax, j + 1, acc + (if Sharp(d.curve) then [ArrowRun(d.curve), d] else [d]), p)
  {
    assert GenLoopPy(rand, segmMax, j, acc, pos) == GenDrawPy(rand, segmMax, j, acc, pos);
  }

  lemma {:induction false} GenLoopPyShape(rand: nat -> nat, segmMax: nat, j: nat, acc: seq<SegSrc>, pos: nat)
    requires LoopInvPy(segmMax, j, acc)
    ensures ShapePy(segmMax, GenLoopPy(rand, segmMax, j, acc, pos).0)
    decreases segmMax - j
  {
    if j >= segmMax - 1 {
      assert GenLoopPy(rand, segmMax, j, acc, pos).0 == acc + [RunFinish];
      InvPyFinish(segmMax, j, acc);
    } else {
      assert GenLoopPy(rand, segmMax, j, acc, pos) == GenDrawPy(rand, segmMax, j, acc, pos);
      var (d, p) := Draft(rand, pos, TablePy);
      TablesWellFormed();
      DraftFits(rand, pos, TablePy, 20, 179);
      InvPyDraw(segmMax, j, acc, d);
      GenLoopPyShape(rand, segmMax, j + 1, acc + (if Sharp(d.curve) then [ArrowRun(d.curve), d] else [d]), p);
    }
  }

  /** The Python generator appends between `segm_max` and `2 * segm_max - 3` runs, framed
      by the fixed runs, every count in `[20, 179]`, and every sharp curve without exception
      directly after its arrow run. */
  lemma GenPyShape(rand: nat -> nat, pos: nat)
    ensures var runs := GenPy(rand, pos).0;
            var segmMax := CourseLen(rand, pos);
            segmMax <= |runs| <= 2 * segmMax - 3 && Framed(runs, 20, 179) && Signposted(runs, -1)
  {
    var segmMax := CourseLen(rand, pos);
    var acc := [RunStart, RunBeam];
    assert [] + [RunStart] == [RunStart];
    assert GenLoopPy(rand, segmMax, 0, [], pos + 1) == GenLoopPy(rand, segmMax, 1, [RunStart], pos + 1);
    assert [RunStart] + [RunBeam] == acc;
    assert GenLoopPy(rand, segmMax, 1, [RunStart], pos + 1) == GenLoopPy(rand, segmMax, 2, acc, pos + 1);
    GenLoopPyShape(rand, segmMax, 2, acc, pos + 1);
    assert ShapePy(segmMax, GenPy(rand, pos).0);
  }

  // ---------------------------------------------------------------- course length

  /** A framed course has at least `103 + (len - 3) * lo` segments: more than the
      200-segment view of the 04 versions for both generators. */
  lemma FramedSegCount(runs: seq<SegSrc>, lo: nat, hi: nat)
    requires Framed(runs, lo, hi)
    ensures 103 + (|runs| - 3) * lo <= Course.SegCount(Shapes(runs)) <= |runs| * hi
  {
    var sh := Shapes(runs);
    var n := |runs|;
    Course.StartNext(sh, 0);
    Course.StartNext(sh, 1);
    Course.StartNext(sh, n - 1);
    Course.StartGap(sh, 2, n - 1, lo, hi);
    Course.StartGap(sh, 0, n, lo, hi);
    assert sh[..n] == sh;
  }

  /** The C course has `273 <= seg_max <= 5676`: longer than `VIEW_DIST = 200` and within
      `SEG_MAX_LIMIT = 30000`. */
  lemma GenCSegCount(rand: nat -> nat, pos: nat)
    ensures 273 <= Course.SegCount(Shapes(GenC(rand, pos).0)) <= 5676
  {
    var runs := GenC(rand, pos).0;
    GenCShape(rand, pos);
    FramedSegCount(runs, 10, 129);
  }

  /** The Python course has at least 443 segments, more than `view_distance = 200`. */
  lemma GenPySegCount(rand: nat -> nat, pos: nat)
    ensures 443 <= Course.SegCount(Shapes(GenPy(rand, pos).0))
  {
    var runs := GenPy(rand, pos).0;
    GenPyShape(rand, pos);
    FramedSegCount(runs, 20, 179);
  }
}
