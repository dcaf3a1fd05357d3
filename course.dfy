/** The course: a closed loop of runs `{cnt, curve, pitch}` and its expansion into
    `seg_max = Σ cnt` segments of equal length. Segment `j` of run `i` sits at
    `z = (start of run i + j) * seg_length`, and its curve and pitch move linearly from
    run `i`'s values toward run `(i + 1) % len`'s at ratio `j / cnt`. The 04 versions
    negate every pitch on the way (`flip`). */
module Course {
  import opened Numeric

  /** One source run (`SegDataSrc`, the `cnt`/`curve`/`pitch` part of `SEGSRC`). */
  datatype Run = Run(cnt: nat, curve: real, pitch: real)

  /** The geometric part of one expanded segment (`SegData`). */
  datatype Seg = Seg(z: real, curve: real, pitch: real)

  /** `seg_max`: the number of segments the runs expand to, summed front to back. */
  function SegCount(runs: seq<Run>): nat
  {
    if runs == [] then 0 else SegCount(runs[..|runs| - 1]) + runs[|runs| - 1].cnt
  }

  /** Index of the first segment of run `i`. */
  function Start(runs: seq<Run>, i: nat): nat
    requires i <= |runs|
  {
    SegCount(runs[..i])
  }

  lemma StartNext(runs: seq<Run>, i: nat)
    requires i < |runs|
    ensures Start(runs, i + 1) == Start(runs, i) + runs[i].cnt
  {
    assert runs[..i + 1][..i] == runs[..i];
  }

  lemma {:induction false} StartMono(runs: seq<Run>, a: nat, b: nat)
    requires a <= b <= |runs|
    ensures Start(runs, a) <= Start(runs, b)
  {
    if a < b {
      StartMono(runs, a, b - 1);
      StartNext(runs, b - 1);
    }
  }

  /** Counts the segments the runs expand to, front to back (`seg_max += cnt`). */
  method CountSegments(runs: seq<Run>) returns (n: nat)
    ensures n == SegCount(runs)
  {
    n := 0;
    for i := 0 to |runs|
      invariant n == Start(runs, i)
    {
      StartNext(runs, i);
      n := n + runs[i].cnt;
    }
    assert runs[..|runs|] == runs;
  }

  /** Pitch as a run contributes it: negated when `flip`. */
  function Pitch(r: Run, flip: bool): real
  {
    if flip then -r.pitch else r.pitch
  }

  /** Segment `j` of run `i`. */
  function SegOf(runs: seq<Run>, i: nat, j: nat, segLength: real, flip: bool): Seg
    requires i < |runs| && j < runs[i].cnt
  {
    var next := runs[(i + 1) % |runs|];
    var ratio := j as real / runs[i].cnt as real;
    Seg((Start(runs, i) + j) as real * segLength,
        Lerp(runs[i].curve, next.curve, ratio),
        Lerp(Pitch(runs[i], flip), Pitch(next, flip), ratio))
  }

  /** The run and sub-index of global segment `k` among the first `m` runs. */
  function LocateIn(runs: seq<Run>, m: nat, k: nat): (ij: (nat, nat))
    requires m <= |runs| && k < Start(runs, m)
    ensures ij.0 < m && ij.1 < runs[ij.0].cnt && Start(runs, ij.0) + ij.1 == k
  {
    StartNext(runs, m - 1);
    if k >= Start(runs, m - 1) then (m - 1, k - Start(runs, m - 1))
    else LocateIn(runs, m - 1, k)
  }

  /** The run and sub-index of global segment `k`. */
  function Locate(runs: seq<Run>, k: nat): (ij: (nat, nat))
    requires k < SegCount(runs)
    ensures ij.0 < |runs| && ij.1 < runs[ij.0].cnt && Start(runs, ij.0) + ij.1 == k
  {
    assert runs[..|runs|] == runs;
    LocateIn(runs, |runs|, k)
  }

  /** Global segment `k` of the expansion. */
  function SegAt(runs: seq<Run>, k: nat, segLength: real, flip: bool): Seg
    requires k < SegCount(runs)
  {
    var ij := Locate(runs, k);
    SegOf(runs, ij.0, ij.1, segLength, flip)
  }

  /** The whole expanded course: every run's segments, run after run. */
  function Expand(runs: seq<Run>, segLength: real, flip: bool): (r: seq<Seg>)
    ensures |r| == SegCount(runs)
  {
    seq(SegCount(runs), k requires 0 <= k < SegCount(runs) => SegAt(runs, k, segLength, flip))
  }

  lemma {:induction false} LocateInStart(runs: seq<Run>, m: nat, i: nat, j: nat)
    requires i < m <= |runs| && j < runs[i].cnt
    ensures Start(runs, i) + j < Start(runs, m)
    ensures LocateIn(runs, m, Start(runs, i) + j) == (i, j)
  {
    StartNext(runs, i);
    StartMono(runs, i + 1, m);
    StartNext(runs, m - 1);
    if i < m - 1 {
      StartMono(runs, i + 1, m - 1);
      LocateInStart(runs, m - 1, i, j);
    }
  }

  /** Segment `j` of run `i` is found at global index `start(i) + j`, and nowhere else. */
  lemma LocateStart(runs: seq<Run>, i: nat, j: nat)
    requires i < |runs| && j < runs[i].cnt
    ensures Start(runs, i) + j < SegCount(runs)
    ensures Locate(runs, Start(runs, i) + j) == (i, j)
  {
    assert runs[..|runs|] == runs;
    LocateInStart(runs, |runs|, i, j);
  }

  /** Segment `j` of run `i` is at global index `start(i) + j` of the expansion. */
  lemma ExpandAt(runs: seq<Run>, i: nat, j: nat, segLength: real, flip: bool)
    requires i < |runs| && j < runs[i].cnt
    ensures Start(runs, i) + j < SegCount(runs)
    ensures SegAt(runs, Start(runs, i) + j, segLength, flip) == SegOf(runs, i, j, segLength, flip)
    ensures Expand(runs, segLength, flip)[Start(runs, i) + j] == SegOf(runs, i, j, segLength, flip)
  {
    LocateStart(runs, i, j);
  }

  /** Global segment `k = start(i) + j` is segment `j` of run `i`. */
  lemma SegAtOf(runs: seq<Run>, i: nat, j: nat, k: nat, segLength: real, flip: bool)
    requires i < |runs| && j < runs[i].cnt && k == Start(runs, i) + j
    ensures k < SegCount(runs)
    ensures SegAt(runs, k, segLength, flip) == SegOf(runs, i, j, segLength, flip)
  {
    LocateStart(runs, i, j);
  }

  /** Global segment `k = start(i) + j` as the expansion loops compute it: at
      `z = k * seg_length`, with curve and (possibly negated) pitch blended toward run
      `(i + 1) % len` at `ratio = j / cnt`. */
  lemma SegAtBlend(runs: seq<Run>, i: nat, j: nat, k: nat, segLength: real, flip: bool)
    requires i < |runs| && j < runs[i].cnt && k == Start(runs, i) + j
    ensures k < SegCount(runs)
    ensures var r, n, ratio := runs[i], runs[(i + 1) % |runs|], j as real / runs[i].cnt as real;
            SegAt(runs, k, segLength, flip) ==
              Seg(k as real * segLength, Lerp(r.curve, n.curve, ratio), Lerp(Pitch(r, flip), Pitch(n, flip), ratio))
  {
    SegAtOf(runs, i, j, k, segLength, flip);
    SegOfZAt(runs, i, j, k, segLength, flip);
  }

  /** The same without the pitch flip, as the 02 and 03 versions expand. */
  lemma SegAtBlendPlain(runs: seq<Run>, i: nat, j: nat, k: nat, segLength: real, z: real, c: real, p: real)
    requires i < |runs| && j < runs[i].cnt && k == Start(runs, i) + j && z == k as real * segLength
    requires var r, n, ratio := runs[i], runs[(i + 1) % |runs|], j as real / runs[i].cnt as real;
             c == Lerp(r.curve, n.curve, ratio) && p == Lerp(r.pitch, n.pitch, ratio)
    ensures k < SegCount(runs) && SegAt(runs, k, segLength, false) == Seg(z, c, p)
  {
    SegAtBlend(runs, i, j, k, segLength, false);
  }

  /** The same with the pitch negated, as the 04 versions expand. */
  lemma SegAtBlendFlip(runs: seq<Run>, i: nat, j: nat, k: nat, segLength: real, z: real, c: real, p: real)
    requires i < |runs| && j < runs[i].cnt && k == Start(runs, i) + j && z == k as real * segLength
    requires var r, n, ratio := runs[i], runs[(i + 1) % |runs|], j as real / runs[i].cnt as real;
             c == Lerp(r.curve, n.curve, ratio) && p == Lerp(-r.pitch, -n.pitch, ratio)
    ensures k < SegCount(runs) && SegAt(runs, k, segLength, true) == Seg(z, c, p)
  {
    SegAtBlend(runs, i, j, k, segLength, true);
  }

  /** Proof helper: the z of segment `j` of run `i` in terms of its index `k`. */
  lemma SegOfZAt(runs: seq<Run>, i: nat, j: nat, k: nat, segLength: real, flip: bool)
    requires i < |runs| && j < runs[i].cnt && k == Start(runs, i) + j
    ensures SegOf(runs, i, j, segLength, flip).z == k as real * segLength
  {
    assert (Start(runs, i) + j) as real == k as real;
  }

  lemma SegOfFirst(runs: seq<Run>, i: nat, segLength: real, flip: bool)
    requires i < |runs| && 0 < runs[i].cnt
    ensures SegOf(runs, i, 0, segLength, flip).curve == runs[i].curve
    ensures SegOf(runs, i, 0, segLength, flip).pitch == Pitch(runs[i], flip)
  {
    assert 0 as real / runs[i].cnt as real == 0.0;
  }

  lemma SegOfCurve(runs: seq<Run>, i: nat, j: nat, segLength: real, flip: bool)
    requires i < |runs| && j < runs[i].cnt
    ensures var c, c' := runs[i].curve, runs[(i + 1) % |runs|].curve;
            var s := SegOf(runs, i, j, segLength, flip);
            (c <= c' ==> c <= s.curve <= c') && (c' <= c ==> c' <= s.curve <= c)
  {
    UnitRatio(j as real, runs[i].cnt as real);
    LerpBetween(runs[i].curve, runs[(i + 1) % |runs|].curve, j as real / runs[i].cnt as real);
  }

  /** Every segment `k` of the expansion lies at `z = k * seg_length`. */
  lemma ExpandZ(runs: seq<Run>, k: nat, segLength: real, flip: bool)
    requires k < SegCount(runs)
    ensures Expand(runs, segLength, flip)[k].z == k as real * segLength
  {
    var ij := Locate(runs, k);
    ExpandAt(runs, ij.0, ij.1, segLength, flip);
    SegOfZAt(runs, ij.0, ij.1, k, segLength, flip);
  }

  /** The first segment of each run reproduces the run's own curve and (possibly negated) pitch. */
  lemma ExpandRunStart(runs: seq<Run>, i: nat, segLength: real, flip: bool)
    requires i < |runs| && runs[i].cnt > 0
    ensures Start(runs, i) < SegCount(runs)
    ensures Expand(runs, segLength, flip)[Start(runs, i)].curve == runs[i].curve
    ensures Expand(runs, segLength, flip)[Start(runs, i)].pitch == Pitch(runs[i], flip)
  {
    ExpandAt(runs, i, 0, segLength, flip);
    SegOfFirst(runs, i, segLength, flip);
  }

  /** Inside a run the curve stays between the run's curve and the next run's curve. */
  lemma ExpandCurveBetween(runs: seq<Run>, k: nat, segLength: real, flip: bool)
    requires k < SegCount(runs)
    ensures var ij := Locate(runs, k);
            var c, c' := runs[ij.0].curve, runs[(ij.0 + 1) % |runs|].curve;
            var s := Expand(runs, segLength, flip)[k];
            (c <= c' ==> c <= s.curve <= c') && (c' <= c ==> c' <= s.curve <= c)
  {
    var ij := Locate(runs, k);
    SegOfCurve(runs, ij.0, ij.1, segLength, flip);
  }

  /** Bounds on the number of segments in runs `a..b` from bounds on each of their counts. */
  lemma {:induction false} StartGap(runs: seq<Run>, a: nat, b: nat, lo: nat, hi: nat)
    requires a <= b <= |runs|
    requires forall i :: a <= i < b ==> lo <= runs[i].cnt <= hi
    ensures (b - a) * lo <= Start(runs, b) - Start(runs, a) <= (b - a) * hi
  {
    if a < b {
      StartGap(runs, a, b - 1, lo, hi);
      StartNext(runs, b - 1);
      assert (b - a) * lo == (b - 1 - a) * lo + lo;
      assert (b - a) * hi == (b - 1 - a) * hi + hi;
    }
  }
}
