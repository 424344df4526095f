/** Vectors, quaternions and the floating-point mathematics the generator uses.
    Single-precision floats are modelled as `real` (no rounding, no NaN).
    Dot products, cross products and squared lengths are exact algebra; square
    roots, trigonometry, normalisation and quaternion construction/rotation are
    supplied from outside as the fields of a `Math` record and stay uninterpreted. */
module Geometry {

  datatype Vec2 = Vec2(x: real, y: real)
  datatype Vec3 = Vec3(x: real, y: real, z: real)
  /** A rotation quaternion; its components are only stored and read back. */
  datatype Quat = Quat(x: real, y: real, z: real, w: real)

  const Pi: real := 3.14159265358979
  const Zero2: Vec2 := Vec2(0.0, 0.0)
  const Zero3: Vec3 := Vec3(0.0, 0.0, 0.0)
  const UnitX: Vec3 := Vec3(1.0, 0.0, 0.0)
  const UnitY: Vec3 := Vec3(0.0, 1.0, 0.0)
  const Identity: Quat := Quat(0.0, 0.0, 0.0, 1.0)

  /** The operations that are left uninterpreted:
      - normalize: `Vec3::normalize`
      - axisAngle(axis, angle, v): `Quat::from_axis_angle(axis, angle) * v`
      - rotationArc(from, to): `Quat::from_rotation_arc(from, to)`
      - rotate(q, v): `q * v`
      - sqrt, sin, cos: the scalar functions */
  datatype Math = Math(
    normalize: Vec3 -> Vec3,
    axisAngle: (Vec3, real, Vec3) -> Vec3,
    rotationArc: (Vec3, Vec3) -> Quat,
    rotate: (Quat, Vec3) -> Vec3,
    sqrt: real -> real,
    sin: real -> real,
    cos: real -> real)

  /** The property of a square root that the area-conservation argument needs. */
  ghost predicate IsSquareRoot(sqrt: real -> real)
  {
    forall x: real {:trigger sqrt(x)} :: 0.0 <= x ==> 0.0 <= sqrt(x) && sqrt(x) * sqrt(x) == x
  }

  /** The property of sine and cosine that places points on a circle. */
  ghost predicate IsUnitCircle(sin: real -> real, cos: real -> real)
  {
    forall a: real {:trigger sin(a)} {:trigger cos(a)} :: cos(a) * cos(a) + sin(a) * sin(a) == 1.0
  }

  function Add(a: Vec3, b: Vec3): Vec3 { Vec3(a.x + b.x, a.y + b.y, a.z + b.z) }
  function Sub(a: Vec3, b: Vec3): Vec3 { Vec3(a.x - b.x, a.y - b.y, a.z - b.z) }
  function Scale(a: Vec3, s: real): Vec3 { Vec3(a.x * s, a.y * s, a.z * s) }
  function Cross(a: Vec3, b: Vec3): Vec3
  {
    Vec3(a.y * b.z - a.z * b.y, a.z * b.x - a.x * b.z, a.x * b.y - a.y * b.x)
  }
  function LengthSq(a: Vec3): real { a.x * a.x + a.y * a.y + a.z * a.z }

  function Add2(a: Vec2, b: Vec2): Vec2 { Vec2(a.x + b.x, a.y + b.y) }
  function Sub2(a: Vec2, b: Vec2): Vec2 { Vec2(a.x - b.x, a.y - b.y) }
  function Scale2(a: Vec2, s: real): Vec2 { Vec2(a.x * s, a.y * s) }
  function Dot2(a: Vec2, b: Vec2): real { a.x * b.x + a.y * b.y }
  function LengthSq2(a: Vec2): real { a.x * a.x + a.y * a.y }

  function Radians(degrees: real): real { degrees * Pi / 180.0 }

  function Min(a: real, b: real): real { if a <= b then a else b }
  function Max(a: real, b: real): real { if a >= b then a else b }
  function Clamp(x: real, lo: real, hi: real): real { Min(Max(x, lo), hi) }
  function Abs(x: real): real { if x < 0.0 then -x else x }

  /** `f32::rem_euclid(x, m)` for a positive modulus. */
  function RemEuclid(x: real, m: real): (r: real)
    requires m > 0.0
    ensures 0.0 <= r < m
  {
    var k := (x / m).Floor as real;
    FloorMultiple(x, m, k);
    x - k * m
  }

  /** `x - floor(x / m) * m` lies in `[0, m)`. */
  lemma FloorMultiple(x: real, m: real, k: real)
    requires m > 0.0 && k <= x / m < k + 1.0
    ensures 0.0 <= x - k * m < m
  {
    var d := x / m - k;
    assert x - k * m == d * m;
    MulLeq(0.0, d, m);
    MulLess(d, 1.0, m);
  }

  /** One-product monotonicity; proof plumbing for `FloorMultiple` and the thinness bound. */
  lemma MulLeq(a: real, b: real, m: real)
    requires a <= b && m > 0.0
    ensures a * m <= b * m
  {
  }

  /** Strict one-product monotonicity; proof plumbing for `FloorMultiple`. */
  lemma MulLess(a: real, b: real, m: real)
    requires a < b && m > 0.0
    ensures a * m < b * m
  {
  }

  /** The largest value of the `u32` and `usize` types of the source (wasm32). */
  const U32Max: nat := 0xFFFF_FFFF

  /** `x as u32` for a float: truncation toward zero, saturating at both ends. */
  function TruncU32(x: real): (r: nat)
    ensures r <= U32Max
    ensures x >= 0.0 && x < U32Max as real ==> r as real <= x < r as real + 1.0
    ensures x < 1.0 ==> r == 0
  {
    if x <= 0.0 then 0 else if x >= U32Max as real then U32Max else x.Floor
  }
}
