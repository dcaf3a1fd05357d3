/** `update_cars` of the 04 versions: four cars, one of each kind 0..3. Cars 0 and 1 keep a
    swaying distance ahead of the camera; cars 2 and 3 drive toward it at a fixed speed and
    wrap to the far end of the course. Each car then marks the segment it is on by OR-ing
    bit `1 << kind` into that segment's `cars` draw flags. `sin` is a parameter: the model
    only relies on its values lying in `[-1, 1]`. */
module Traffic {
  import opened Numeric
  import Billboard
  import Projection

  datatype Car = Car(kind: int, x: real, y: real, z: real, sprKind: int)

  const CarCount := 4

  /** `M_PI`, as far as `deg2rad` needs it. */
  const Pi: real := 3.14159265358979

  /** `deg2rad(a)`; Python's `math.radians(a * k)` is the same real as `k * deg2rad(a)`. */
  function Deg2Rad(a: real): real
  {
    a * Pi / 180.0
  }

  ghost predicate SinBounded(sin: real -> real)
  {
    forall t :: -1.0 <= sin(t) <= 1.0
  }

  /** The cars `init_work` creates: car `i` has kind `i`, stands at 0 and shows the scooter. */
  function InitialCars(): (cars: seq<Car>)
    ensures |cars| == CarCount
    ensures forall i :: 0 <= i < |cars| ==> cars[i].kind == i && cars[i].z == 0.0
  {
    seq(CarCount, i => Car(i, 0.0, 0.0, 0.0, Billboard.SprScooter))
  }

  /** `z -= step; if (z < 0) z += seg_total_length;` */
  function Backward(z: real, step: real, total: real): (r: real)
    ensures 0.0 <= z < total && 0.0 < step <= total ==> 0.0 <= r < total
    ensures z - step >= 0.0 ==> r == z - step
    ensures z - step < 0.0 ==> r == z - step + total
  {
    var z' := z - step;
    if z' < 0.0 then z' + total else z'
  }

  /** One car's move for the frame: `road_w` and `spd_max` are the game constants, `angle`
      the sway phase already advanced by `spd`. */
  function MoveCar(c: Car, cam: real, angle: real, sin: real -> real, roadW: real, spdMax: real, total: real): (r: Car)
    ensures r.kind == c.kind && r.y == 0.0
    ensures (c.kind == 2 || c.kind == 3) && 0.0 <= c.z < total && 0.0 < spdMax * 0.25 <= total ==>
              0.0 <= r.z < total
    ensures (c.kind == 0 || c.kind == 1) && SinBounded(sin) ==> cam + 150.0 <= r.z <= cam + 450.0
    ensures !(0 <= c.kind <= 3) ==> r == c.(y := 0.0)
  {
    match c.kind
    case 0 =>
      var rx := roadW * 0.5;
      var s1, s2 := sin(0.035 * Deg2Rad(angle)), sin(0.1 * Deg2Rad(angle));
      Car(0, -rx * 1.35 + (rx * 0.25) * s1, 0.0, cam + 170.0 + 20.0 * s2, Billboard.SprScooter)
    case 1 =>
      var s := sin(0.02 * Deg2Rad(angle));
      Car(1, -roadW * 0.25, 0.0, cam + 300.0 + 150.0 * s, Billboard.SprCar0)
    case 2 => Car(2, roadW * 0.25, 0.0, Backward(c.z, spdMax * 0.25, total), Billboard.SprCar0 + 1)
    case 3 => Car(3, roadW * 0.7, 0.0, Backward(c.z, spdMax * 0.2, total), Billboard.SprCar0 + 2)
    case _ => c.(y := 0.0)
  }

  /** `1 << kind` for the four car kinds. The draw flags are a C `int` in which only bits
      0..3 are ever set; the model keeps them in an 8-bit word. */
  function Bit(kind: nat): bv8
    requires kind < 4
  {
    match kind
    case 0 => 1
    case 1 => 2
    case 2 => 4
    case 3 => 8
  }

  /** The masks are the shifts `1 << kind` of the source. */
  lemma BitIsShift(kind: nat)
    requires kind < 4
    ensures Bit(kind) == (1 as bv8) << kind
  {
  }

  lemma BitsDisjoint(k: nat, j: nat)
    requires k < 4 && j < 4 && k != j
    ensures Bit(k) & Bit(j) == 0
  {
  }

  /** Kinds a draw-flag word can hold. */
  predicate Flaggable(cars: seq<Car>)
  {
    forall m :: 0 <= m < |cars| ==> 0 <= cars[m].kind < 4
  }

  /** The segment a car marks: `(int)(z / seg_length) % seg_max`, wrapped non-negative. */
  function CarSegment(c: Car, segLength: real, segMax: nat): (i: nat)
    requires segLength > 0.0 && segMax > 0
    ensures i < segMax
  {
    Projection.WrapIndexC(c.z, segLength, segMax)
  }

  /** The bits the cars OR into segment `i`, in car order. */
  function CarBits(cars: seq<Car>, i: nat, segLength: real, segMax: nat): bv8
    requires segLength > 0.0 && segMax > 0 && Flaggable(cars)
  {
    if cars == [] then 0
    else
      var c := cars[|cars| - 1];
      CarBits(cars[..|cars| - 1], i, segLength, segMax) |
        (if CarSegment(c, segLength, segMax) == i then Bit(c.kind) else 0)
  }

  lemma OrMask(a: bv8, b: bv8, m: bv8)
    ensures (a | b) & m != 0 <==> a & m != 0 || b & m != 0
  {
    assert (a | b) & m == (a & m) | (b & m);
  }

  lemma HasBitSingle(j: nat, k: nat)
    requires j < 4 && k < 4
    ensures Bit(j) & Bit(k) != 0 <==> j == k
    ensures (0 as bv8) & Bit(k) == 0
  {
    if j != k { BitsDisjoint(j, k); }
  }

  /** Some car of kind `k` is on segment `i`, scanning the cars from the back. */
  predicate Marks(cars: seq<Car>, i: nat, segLength: real, segMax: nat, k: nat)
    requires segLength > 0.0 && segMax > 0
  {
    cars != [] &&
      (Marks(cars[..|cars| - 1], i, segLength, segMax, k) ||
       (cars[|cars| - 1].kind == k && CarSegment(cars[|cars| - 1], segLength, segMax) == i))
  }

  lemma {:induction false} CarBitsMarks(cars: seq<Car>, i: nat, segLength: real, segMax: nat, k: nat)
    requires segLength > 0.0 && segMax > 0 && Flaggable(cars) && k < 4
    ensures CarBits(cars, i, segLength, segMax) & Bit(k) != 0 <==> Marks(cars, i, segLength, segMax, k)
  {
    if cars != [] {
      var init, c := cars[..|cars| - 1], cars[|cars| - 1];
      CarBitsMarks(init, i, segLength, segMax, k);
      var w0 := CarBits(init, i, segLength, segMax);
      var own: bv8 := if CarSegment(c, segLength, segMax) == i then Bit(c.kind) else 0;
      OrMask(w0, own, Bit(k));
      HasBitSingle(c.kind, k);
    }
  }

  lemma {:induction false} MarksExists(cars: seq<Car>, i: nat, segLength: real, segMax: nat, k: nat)
    requires segLength > 0.0 && segMax > 0
    ensures Marks(cars, i, segLength, segMax, k) <==>
            exists m :: 0 <= m < |cars| && cars[m].kind == k && CarSegment(cars[m], segLength, segMax) == i
  {
    if cars != [] {
      var init := cars[..|cars| - 1];
      MarksExists(init, i, segLength, segMax, k);
      if exists m :: 0 <= m < |cars| && cars[m].kind == k && CarSegment(cars[m], segLength, segMax) == i {
        var m :| 0 <= m < |cars| && cars[m].kind == k && CarSegment(cars[m], segLength, segMax) == i;
        if m < |init| { assert init[m] == cars[m]; }
      }
      if exists m :: 0 <= m < |init| && init[m].kind == k && CarSegment(init[m], segLength, segMax) == i {
        var m :| 0 <= m < |init| && init[m].kind == k && CarSegment(init[m], segLength, segMax) == i;
        assert cars[m] == init[m];
      }
    }
  }

  /** Bit `k` of segment `i`'s flags is set exactly when some car of kind `k` is on segment `i`. */
  lemma CarBitsExact(cars: seq<Car>, i: nat, segLength: real, segMax: nat, k: nat)
    requires segLength > 0.0 && segMax > 0 && Flaggable(cars) && k < 4
    ensures CarBits(cars, i, segLength, segMax) & Bit(k) != 0 <==>
            exists m :: 0 <= m < |cars| && cars[m].kind == k && CarSegment(cars[m], segLength, segMax) == i
  {
    CarBitsMarks(cars, i, segLength, segMax, k);
    MarksExists(cars, i, segLength, segMax, k);
  }

  /** A car marks one segment only: the flags of every other segment get none of its bit. */
  lemma CarBitsElsewhere(cars: seq<Car>, i: nat, segLength: real, segMax: nat, m: nat)
    requires segLength > 0.0 && segMax > 0 && Flaggable(cars) && m < |cars|
    requires forall n :: 0 <= n < |cars| && n != m ==> cars[n].kind != cars[m].kind
    requires CarSegment(cars[m], segLength, segMax) != i
    ensures CarBits(cars, i, segLength, segMax) & Bit(cars[m].kind) == 0
  {
    CarBitsExact(cars, i, segLength, segMax, cars[m].kind);
  }
}
