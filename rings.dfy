/** The ring generator: the initial trunk rings derived from the buttressing value,
    and tapered child rings derived from a parent ring. */
module Rings {
  import opened Geometry
  import opened Structure
  import opened Parameters

  /** Number of trunk lobes: one below buttressing 0.7, otherwise
      `((b - 0.5) * 3 + 1).max(1) as u32`. */
  function RingCount(buttressing: real): (n: nat)
    ensures 1 <= n <= U32Max
    ensures buttressing < 0.7 ==> n == 1
    ensures buttressing >= 0.7 && (buttressing - 0.5) * 3.0 + 1.0 < U32Max as real ==>
      n as real <= (buttressing - 0.5) * 3.0 + 1.0 < n as real + 1.0
  {
    if buttressing < 0.7 then 1 else TruncU32(Max((buttressing - 0.5) * 3.0 + 1.0, 1.0))
  }

  /** The flare factor `1 - 0.75 * clamp(h / height, 0, 1)`, or 1 for a
      non-positive trunk height. */
  function HeightFactor(h: real, trunkHeight: real): (f: real)
    ensures 0.25 <= f <= 1.0
    ensures trunkHeight <= 0.0 ==> f == 1.0
    ensures trunkHeight > 0.0 && h <= 0.0 ==> f == 1.0
    ensures trunkHeight > 0.0 && h >= trunkHeight ==> f == 0.25
  {
    assert trunkHeight > 0.0 && h >= trunkHeight ==> h / trunkHeight >= 1.0 by {
      if trunkHeight > 0.0 && h >= trunkHeight {
        assert h / trunkHeight >= trunkHeight / trunkHeight;
      }
    }
    if trunkHeight > 0.0 then 1.0 - Clamp(h / trunkHeight, 0.0, 1.0) * 0.75 else 1.0
  }

  /** The radius of a single trunk ring: half the trunk size. */
  function BaseRadius(p: TrunkParams): real { 0.5 * p.size }

  /** The radius each of `count` equal rings gets so that their total area is the
      area of the single base ring: `sqrt((PI * base^2 / count) / PI)`. */
  function SharedRadius(p: TrunkParams, count: nat, m: Math): real
    requires count >= 1
  {
    m.sqrt(AreaShare(p, count) / Pi)
  }

  /** One ring's share of the base ring's area `PI * base^2`. */
  function AreaShare(p: TrunkParams, count: nat): real
    requires count >= 1
  {
    Pi * BaseRadius(p) * BaseRadius(p) / count as real
  }

  /** Offset of outer ring `i` of `n`: at angle `i / n * 2 PI`, distance `spread`. */
  function OuterOffset(i: nat, n: nat, spread: real, m: Math): Vec2
    requires n >= 1
  {
    var angle := i as real / n as real * 2.0 * Pi;
    Vec2(m.cos(angle) * spread, m.sin(angle) * spread)
  }

  /** Distance of the outer rings from the centre at height `h`. */
  function SpreadDistance(p: TrunkParams, h: real): real
  {
    BaseRadius(p) * p.ringSpread * HeightFactor(h, p.height)
  }

  /** The rings `generate_trunk_rings(params, h)` returns. */
  function TrunkRings(p: TrunkParams, h: real, m: Math): (rings: seq<ComponentRing>)
    ensures |rings| == RingCount(p.buttressing)
    ensures rings[0].offset == Zero2 && rings[0].ringType == MainTrunk
    ensures forall i :: 1 <= i < |rings| ==> rings[i].ringType == SideBranch
    ensures forall i :: 0 <= i < |rings| ==> rings[i].radius == rings[0].radius
  {
    var count := RingCount(p.buttressing);
    if count == 1 then
      [ComponentRing(Zero2, BaseRadius(p), MainTrunk)]
    else
      var r := SharedRadius(p, count, m);
      [ComponentRing(Zero2, r, MainTrunk)]
        + seq(count - 1, i requires 0 <= i < count - 1 =>
                ComponentRing(OuterOffset(i, count - 1, SpreadDistance(p, h), m), r, SideBranch))
  }

  /** `RingGenerator::generate_trunk_rings`: the centre ring, then the outer rings
      pushed one by one. */
  method GenerateTrunkRings(p: TrunkParams, h: real, m: Math) returns (rings: seq<ComponentRing>)
    ensures rings == TrunkRings(p, h, m)
  {
    var count := RingCount(p.buttressing);
    rings := [];
    if count == 1 {
      rings := rings + [ComponentRing(Zero2, BaseRadius(p), MainTrunk)];
    } else {
      var r := SharedRadius(p, count, m);
      rings := rings + [ComponentRing(Zero2, r, MainTrunk)];
      var outer := count - 1;
      var spread := SpreadDistance(p, h);
      for i := 0 to outer
        invariant |rings| == i + 1
        invariant rings[0] == ComponentRing(Zero2, r, MainTrunk)
        invariant forall j :: 0 <= j < i ==>
          rings[j + 1] == ComponentRing(OuterOffset(j, outer, spread, m), r, SideBranch)
      {
        rings := rings + [ComponentRing(OuterOffset(i, outer, spread, m), r, SideBranch)];
      }
      ghost var spec := TrunkRings(p, h, m);
      assert forall j :: 0 <= j < |rings| ==> rings[j] == spec[j] by {
        forall j | 0 <= j < |rings| ensures rings[j] == spec[j] {
          if j > 0 { assert spec[j] == ComponentRing(OuterOffset(j - 1, outer, spread, m), r, SideBranch); }
        }
      }
    }
  }

  /** Area conservation: every ring of the trunk base has the same radius `r`, and
      `count * r^2` is the squared radius of the single ring it replaces. */
  lemma TrunkRingsConserveArea(p: TrunkParams, h: real, m: Math)
    requires IsSquareRoot(m.sqrt)
    ensures forall i :: 0 <= i < |TrunkRings(p, h, m)| ==>
      |TrunkRings(p, h, m)| as real * TrunkRings(p, h, m)[i].radius * TrunkRings(p, h, m)[i].radius
        == BaseRadius(p) * BaseRadius(p)
  {
    var rings := TrunkRings(p, h, m);
    var count := RingCount(p.buttressing);
    if count > 1 {
      var b := BaseRadius(p);
      var x := AreaShare(p, count) / Pi;
      var r := SharedRadius(p, count, m);
      assert r == m.sqrt(x);
      assert x == b * b / count as real;
      assert 0.0 <= x;
      assert rings[0].radius == r;
      assert r * r == x;
      assert count as real * (r * r) == b * b;
      forall i | 0 <= i < |rings|
        ensures count as real * rings[i].radius * rings[i].radius == b * b
      {
        assert rings[i].radius == r;
      }
    }
  }

  /** With more than one ring, the outer rings lie on a circle of radius
      `base * ring_spread * height_factor` around the centred ring. */
  lemma OuterRingsOnCircle(p: TrunkParams, h: real, m: Math, i: nat)
    requires IsUnitCircle(m.sin, m.cos)
    requires 1 <= i < |TrunkRings(p, h, m)|
    ensures LengthSq2(TrunkRings(p, h, m)[i].offset) == SpreadDistance(p, h) * SpreadDistance(p, h)
  {
    var count := RingCount(p.buttressing);
    var d := SpreadDistance(p, h);
    var angle := (i - 1) as real / (count - 1) as real * 2.0 * Pi;
    var c, s := m.cos(angle), m.sin(angle);
    assert TrunkRings(p, h, m)[i].offset == Vec2(c * d, s * d);
    assert c * c + s * s == 1.0;
    calc {
      (c * d) * (c * d) + (s * d) * (s * d);
      (c * c + s * s) * (d * d);
      d * d;
    }
  }

  /** At height 0, which is where the trunk stage asks for its rings, the flare
      factor is 1 and the outer rings sit at the full `base * ring_spread`. */
  lemma BaseHasFullSpread(p: TrunkParams)
    ensures SpreadDistance(p, 0.0) == BaseRadius(p) * p.ringSpread
  {
  }

  /** `create_child_ring_from_parent`: offset and type are copied and the radius is
      scaled; a ratio in `[0, 1]` never widens a ring. */
  function ChildRing(parent: ComponentRing, taperRatio: real): (child: ComponentRing)
    ensures child.offset == parent.offset && child.ringType == parent.ringType
    ensures 0.0 <= taperRatio <= 1.0 && 0.0 <= parent.radius ==> 0.0 <= child.radius <= parent.radius
  {
    assert 0.0 <= taperRatio <= 1.0 && 0.0 <= parent.radius ==> parent.radius * taperRatio <= parent.radius * 1.0;
    ComponentRing(parent.offset, parent.radius * taperRatio, parent.ringType)
  }
}
