/** Roadside billboards of the 04 versions: the zone a course run belongs to, and the
    sprite (kind, x, scale) that `set_billboard` picks for the j-th segment of a run.
    Random numbers come from a caller-supplied stream `rand` read at a cursor `pos`:
    C's `rand() % n` and Python's `random.randint(0, n - 1)` are both `Roll(rand, pos, n)`,
    and Python's `random.randint(1, 4)` is `1 + Roll(rand, pos, 4)`. Under this reading the
    C and Python `set_billboard` draw the same numbers in the same order, so one function
    models both. */
module Billboard {

  /** The billboard zone of a course run (`BBTYPE` / `Billboard`), in enum order 0..8. */
  datatype Zone = None | Tree | ArrowR | ArrowL | Grass | Beam | House | SlopeL | SlopeR

  /** The sprite placed on one segment: kind number, lateral offset and scale. */
  datatype Placement = Placement(kind: int, x: real, scale: real)

  // Sprite numbers (`SPRTYPE`).
  const SprNone := 0
  const SprTree0 := 1
  const SprArrowR2L := 5
  const SprArrowL2R := 6
  const SprGrass := 7
  const SprBeam := 8
  const SprScooter := 9
  const SprCar0 := 10
  const SprHouse0L := 13
  const SprHouse0R := 14
  const SprSlopeL := 19
  const SprSlopeR := 20
  const SprWall := 21

  /** `road_w`, the half width of the road in the 04 versions. */
  const RoadW: real := 300.0

  /** The placement every call starts from, and the one the NONE zone keeps. */
  const Blank := Placement(SprNone, 0.0, 1.0)

  /** One draw of the random stream reduced to `[0, n)`. */
  function Roll(rand: nat -> nat, pos: nat, n: nat): (r: nat)
    requires n > 0
    ensures r < n
  {
    rand(pos) % n
  }

  function Abs(x: real): real { if x < 0.0 then -x else x }

  predicate Within(v: real, lo: real, hi: real) { lo <= v <= hi }

  /** A tree sprite: one of the four tree kinds, scaled by 1.00 to 1.99. */
  predicate TreeSprite(p: Placement)
  {
    SprTree0 <= p.kind <= SprTree0 + 3 && Within(p.scale, 1.0, 1.99)
  }

  /** The arrow sign of an arrow zone: R-to-L for ARROWR, L-to-R for ARROWL. */
  function ArrowSprite(bb: Zone): int
    requires bb == ArrowR || bb == ArrowL
  {
    if bb == ArrowR then SprArrowR2L else SprArrowL2R
  }

  /** The cadence and ranges `set_billboard` promises for zone `bb` at sub-index `j`:
      an independent description of every placement the draws can produce. */
  predicate Legal(bb: Zone, j: nat, p: Placement)
  {
    match bb
    case None => p == Blank
    case Tree => TreeSprite(p) && Within(Abs(p.x), RoadW + 100.0, RoadW + 499.0)
    case ArrowR | ArrowL =>
      p.scale == 1.0 && (p.x < 0.0 <==> bb == ArrowL) &&
      if j % 4 == 0 then p.kind == ArrowSprite(bb) && Abs(p.x) == RoadW + 120.0
      else p.kind == SprGrass && Within(Abs(p.x), RoadW + 120.0, RoadW + 169.0)
    case Grass =>
      p.kind == SprGrass && Within(Abs(p.x), RoadW + 200.0, RoadW + 399.0) && Within(p.scale, 1.5, 1.99)
    case Beam => p == Placement(if j % 7 == 0 then SprBeam else SprNone, 0.0, 1.0)
    case House =>
      if j % 12 == 4 then
        p.scale == 1.0 &&
        ((p.kind in {SprHouse0L, SprHouse0L + 2, SprHouse0L + 4} && Within(p.x, -(RoadW + 499.0), -(RoadW + 400.0))) ||
         (p.kind in {SprHouse0R, SprHouse0R + 2, SprHouse0R + 4} && Within(p.x, RoadW + 400.0, RoadW + 499.0)))
      else if j % 2 == 0 then TreeSprite(p) && Within(Abs(p.x), RoadW + 300.0, RoadW + 899.0)
      else p == Blank
    case SlopeL =>
      if j == 0 then p == Placement(SprWall, -(RoadW * 6.0), 1.0)
      else if j % 2 == 0 then p == Placement(SprSlopeL, -(RoadW * 1.5), 1.0)
      else TreeSprite(p) && Within(p.x, RoadW + 300.0, RoadW + 899.0)
    case SlopeR =>
      if j == 0 then p == Placement(SprWall, RoadW * 6.0, 1.0)
      else if j % 2 == 0 then p == Placement(SprSlopeR, RoadW * 1.5, 1.0)
      else TreeSprite(p) && Within(p.x, -(RoadW + 899.0), -(RoadW + 300.0))
  }

  /** How many random numbers `set_billboard` consumes for zone `bb` at sub-index `j`. */
  function Draws(bb: Zone, j: nat): nat
  {
    match bb
    case None => 0
    case Tree => 4
    case ArrowR | ArrowL => if j % 4 == 0 then 0 else 1
    case Grass => 3
    case Beam => 0
    case House => if j % 12 == 4 then 3 else if j % 2 == 0 then 4 else 0
    case SlopeL | SlopeR => if j == 0 || j % 2 == 0 then 0 else 3
  }

  /** A tree: kind, distance `base + r` with `r < spread`, a coin for the side, and scale. */
  function RandomTree(rand: nat -> nat, pos: nat, base: real, spread: nat): (res: (Placement, nat))
    requires spread > 0 && base >= 0.0
    ensures res.1 == pos + 4 && TreeSprite(res.0)
    ensures Within(Abs(res.0.x), base, base + (spread - 1) as real)
  {
    var kind := SprTree0 + Roll(rand, pos, 4);
    var x := Roll(rand, pos + 1, spread) as real + base;
    var x' := if Roll(rand, pos + 2, 2) == 0 then -x else x;
    var scale := (100 + Roll(rand, pos + 3, 100)) as real * 0.01;
    (Placement(kind, x', scale), pos + 4)
  }

  /** The tree on an odd sub-index of a slope zone: no side coin; it stands left of the road when `negate`. */
  function SlopeTree(rand: nat -> nat, pos: nat, negate: bool): (res: (Placement, nat))
    ensures res.1 == pos + 3 && TreeSprite(res.0)
    ensures !negate ==> Within(res.0.x, RoadW + 300.0, RoadW + 899.0)
    ensures negate ==> Within(res.0.x, -(RoadW + 899.0), -(RoadW + 300.0))
  {
    var kind := SprTree0 + Roll(rand, pos, 4);
    var x := Roll(rand, pos + 1, 600) as real + RoadW + 300.0;
    var scale := (100 + Roll(rand, pos + 2, 100)) as real * 0.01;
    (Placement(kind, if negate then -x else x, scale), pos + 3)
  }

  /** `set_billboard(bbkind, j)`: the placement for sub-index `j` of a run of zone `bb`,
      and the cursor after the draws it made. */
  function SetBillboard(rand: nat -> nat, pos: nat, bb: Zone, j: nat): (res: (Placement, nat))
    ensures res.1 == pos + Draws(bb, j)
  {
    match bb
    case None => (Blank, pos)
    case Tree => RandomTree(rand, pos, RoadW + 100.0, 400)
    case ArrowR | ArrowL =>
      var (kind, x, p) :=
        if j % 4 == 0 then (ArrowSprite(bb), RoadW + 120.0, pos)
        else (SprGrass, Roll(rand, pos, 50) as real + RoadW + 120.0, pos + 1);
      (Placement(kind, if bb == ArrowL then -x else x, 1.0), p)
    case Grass =>
      var x := Roll(rand, pos, 200) as real + RoadW + 200.0;
      var x' := if Roll(rand, pos + 1, 2) == 0 then -x else x;
      var scale := (150 + Roll(rand, pos + 2, 50)) as real * 0.01;
      (Placement(SprGrass, x', scale), pos + 3)
    case Beam => (Placement(if j % 7 == 0 then SprBeam else SprNone, 0.0, 1.0), pos)
    case House =>
      if j % 12 == 4 then
        var x := -(RoadW + 400.0 + Roll(rand, pos, 100) as real);
        var left := Roll(rand, pos + 1, 2) == 0;
        var kind := (if left then SprHouse0L else SprHouse0R) + Roll(rand, pos + 2, 3) * 2;
        (Placement(kind, if left then x else -x, 1.0), pos + 3)
      else if j % 2 == 0 then RandomTree(rand, pos, RoadW + 300.0, 600)
      else (Blank, pos)
    case SlopeL =>
      if j == 0 then (Placement(SprWall, -(RoadW * 6.0), 1.0), pos)
      else if j % 2 == 0 then (Placement(SprSlopeL, -(RoadW * 1.5), 1.0), pos)
      else SlopeTree(rand, pos, false)
    case SlopeR =>
      if j == 0 then (Placement(SprWall, RoadW * 6.0, 1.0), pos)
      else if j % 2 == 0 then (Placement(SprSlopeR, RoadW * 1.5, 1.0), pos)
      else SlopeTree(rand, pos, true)
  }

  /** Whatever the stream holds, `set_billboard` keeps to the cadence and ranges of its zone. */
  lemma SetBillboardLegal(rand: nat -> nat, pos: nat, bb: Zone, j: nat)
    ensures Legal(bb, j, SetBillboard(rand, pos, bb, j).0)
  {
  }

  /** How many random numbers `set_billboard` consumes for the first `n` segments of a
      run of zone `bb`. */
  function RunDraws(bb: Zone, n: nat): nat
  {
    if n == 0 then 0 else RunDraws(bb, n - 1) + Draws(bb, n - 1)
  }
}
