/** Perimeter sampling of one cross-section (`generate_unified_geometry` and its
    single- and multi-ring helpers): `resolution` points around the section, at
    equal angles, each with a normal and a tangent. A section without rings has
    no points; a single ring is sampled as a circle; several rings are sampled as
    the outline of their union, pushed out to at least 0.1 from the centre. */
module Sampling {
  import opened Geometry
  import opened Structure

  datatype CrossSectionGeometry = CrossSectionGeometry(
    points: seq<Vec3>,
    normals: seq<Vec3>,
    tangents: seq<Vec3>,
    sectionNormal: Vec3)

  /** One sampled point with its normal and tangent. */
  datatype Sample = Sample(point: Vec3, normal: Vec3, tangent: Vec3)

  /** The smallest distance a multi-ring sample is pushed out to. */
  const MinReach: real := 0.1

  /** The angle of sample `i`: `(i / resolution) * 2 * pi`. */
  function SampleAngle(i: nat, resolution: nat): real
    requires i < resolution
  {
    (i as real / resolution as real) * 2.0 * Pi
  }

  /** A point of the section's local plane taken to world space, with the normal
      of the local point and the tangent perpendicular to it, both rotated by the
      section's orientation. */
  function ToWorld(cs: CrossSection, local: Vec3, m: Math): Sample
  {
    Sample(Add(cs.center, m.rotate(cs.orientation, local)),
           m.rotate(cs.orientation, m.normalize(local)),
           m.rotate(cs.orientation, m.normalize(Vec3(-local.z, 0.0, local.x))))
  }

  /** The section's own direction: the orientation applied to +Y. */
  function SectionNormal(cs: CrossSection, m: Math): Vec3
  {
    m.rotate(cs.orientation, UnitY)
  }

  /** Sample `i` of a single ring: on the circle of the ring's radius around its
      offset, in the local XZ plane. */
  function SingleSample(cs: CrossSection, ring: ComponentRing, i: nat, resolution: nat, m: Math): Sample
    requires i < resolution
  {
    var angle := SampleAngle(i, resolution);
    ToWorld(cs, Vec3(m.cos(angle) * ring.radius + ring.offset.x, 0.0, m.sin(angle) * ring.radius + ring.offset.y), m)
  }

  /** `generate_single_ring_geometry`: exactly `resolution` samples. The per-sample
      clause only names sample `i` for the loop proof of `GenerateSingleRingGeometry`. */
  function SingleRingGeometry(cs: CrossSection, ring: ComponentRing, resolution: nat, m: Math): (g: CrossSectionGeometry)
    ensures |g.points| == |g.normals| == |g.tangents| == resolution
    ensures forall i :: 0 <= i < resolution ==>
      Sample(g.points[i], g.normals[i], g.tangents[i]) == SingleSample(cs, ring, i, resolution, m)
  {
    CrossSectionGeometry(
      seq(resolution, i requires 0 <= i < resolution => SingleSample(cs, ring, i, resolution, m).point),
      seq(resolution, i requires 0 <= i < resolution => SingleSample(cs, ring, i, resolution, m).normal),
      seq(resolution, i requires 0 <= i < resolution => SingleSample(cs, ring, i, resolution, m).tangent),
      SectionNormal(cs, m))
  }

  /** How far along the unit direction `dir` the ring reaches: when the line
      through the centre along `dir` meets the circle, the far intersection;
      otherwise the projection of the offset plus the radius. */
  function RingReach(ring: ComponentRing, dir: Vec2, m: Math): real
  {
    var projection := Dot2(ring.offset, dir);
    var distance := CentreDistance(ring.offset, dir, projection, m);
    if distance <= ring.radius then FarIntersection(projection, ring.radius, distance, m)
    else projection + ring.radius
  }

  /** The distance from the ring's centre to the line through the origin along `dir`. */
  function CentreDistance(offset: Vec2, dir: Vec2, projection: real, m: Math): real
  {
    m.sqrt(LengthSq2(Sub2(offset, Scale2(dir, projection))))
  }

  /** The far point where that line meets the circle. */
  function FarIntersection(projection: real, radius: real, distance: real, m: Math): real
  {
    projection + m.sqrt(radius * radius - distance * distance)
  }

  /** The running maximum over the first `k` rings, starting from 0. */
  function ReachUpTo(rings: seq<ComponentRing>, k: nat, dir: Vec2, m: Math): real
    requires k <= |rings|
  {
    if k == 0 then 0.0 else Max(ReachUpTo(rings, k - 1, dir, m), RingReach(rings[k - 1], dir, m))
  }

  /** The running maximum is at least 0 and at least every ring's reach seen so
      far, and it is 0 or one of those reaches. */
  lemma {:induction false} ReachUpToIsMax(rings: seq<ComponentRing>, k: nat, dir: Vec2, m: Math)
    requires k <= |rings|
    ensures 0.0 <= ReachUpTo(rings, k, dir, m)
    ensures forall j :: 0 <= j < k ==> RingReach(rings[j], dir, m) <= ReachUpTo(rings, k, dir, m)
    ensures ReachUpTo(rings, k, dir, m) == 0.0 ||
            exists j :: 0 <= j < k && ReachUpTo(rings, k, dir, m) == RingReach(rings[j], dir, m)
  {
    if k > 0 {
      ReachUpToIsMax(rings, k - 1, dir, m);
    }
  }

  /** The distance of a multi-ring sample along `dir`: the largest reach of any
      ring, but never less than 0.1. */
  function SampleDistance(rings: seq<ComponentRing>, dir: Vec2, m: Math): (d: real)
    ensures MinReach <= d
    ensures forall j :: 0 <= j < |rings| ==> RingReach(rings[j], dir, m) <= d
    ensures d == MinReach || exists j :: 0 <= j < |rings| && d == RingReach(rings[j], dir, m)
  {
    ReachUpToIsMax(rings, |rings|, dir, m);
    Max(ReachUpTo(rings, |rings|, dir, m), MinReach)
  }

  /** The unit direction of sample `i`. */
  function Direction(i: nat, resolution: nat, m: Math): Vec2
    requires i < resolution
  {
    var angle := SampleAngle(i, resolution);
    Vec2(m.cos(angle), m.sin(angle))
  }

  /** Sample `i` of the union outline: along the sample direction, at the sample
      distance. */
  function MultiSample(cs: CrossSection, i: nat, resolution: nat, m: Math): Sample
    requires i < resolution
  {
    OutlineSample(cs, Direction(i, resolution, m), SampleDistance(cs.rings, Direction(i, resolution, m), m), m)
  }

  /** The outline point at distance `d` along the unit direction `dir`. */
  function OutlineSample(cs: CrossSection, dir: Vec2, d: real, m: Math): Sample
  {
    ToWorld(cs, Vec3(dir.x * d, 0.0, dir.y * d), m)
  }

  /** `generate_multi_ring_geometry`: exactly `resolution` samples. The per-sample
      clause only names sample `i` for the loop proof of `GenerateMultiRingGeometry`. */
  function MultiRingGeometry(cs: CrossSection, resolution: nat, m: Math): (g: CrossSectionGeometry)
    ensures |g.points| == |g.normals| == |g.tangents| == resolution
    ensures forall i :: 0 <= i < resolution ==>
      Sample(g.points[i], g.normals[i], g.tangents[i]) == MultiSample(cs, i, resolution, m)
  {
    CrossSectionGeometry(
      seq(resolution, i requires 0 <= i < resolution => MultiSample(cs, i, resolution, m).point),
      seq(resolution, i requires 0 <= i < resolution => MultiSample(cs, i, resolution, m).normal),
      seq(resolution, i requires 0 <= i < resolution => MultiSample(cs, i, resolution, m).tangent),
      SectionNormal(cs, m))
  }

  /** `generate_unified_geometry`: no points without rings, the circle of the only
      ring, or the union outline of several; always `resolution` points otherwise,
      with as many normals and tangents. */
  function UnifiedGeometry(cs: CrossSection, resolution: nat, m: Math): (g: CrossSectionGeometry)
    ensures |g.points| == |g.normals| == |g.tangents| == (if |cs.rings| == 0 then 0 else resolution)
    ensures g.sectionNormal == SectionNormal(cs, m)
  {
    if |cs.rings| == 0 then CrossSectionGeometry([], [], [], SectionNormal(cs, m))
    else if |cs.rings| == 1 then SingleRingGeometry(cs, cs.rings[0], resolution, m)
    else MultiRingGeometry(cs, resolution, m)
  }

  /** The loop of `generate_single_ring_geometry`, pushing one sample at a time. */
  method GenerateSingleRingGeometry(cs: CrossSection, ring: ComponentRing, resolution: nat, m: Math)
    returns (g: CrossSectionGeometry)
    ensures g == SingleRingGeometry(cs, ring, resolution, m)
  {
    ghost var spec := SingleRingGeometry(cs, ring, resolution, m);
    var points, normals, tangents := [], [], [];
    for i := 0 to resolution
      invariant points == spec.points[..i] && normals == spec.normals[..i] && tangents == spec.tangents[..i]
    {
      var s := SingleSample(cs, ring, i, resolution, m);
      points, normals, tangents := points + [s.point], normals + [s.normal], tangents + [s.tangent];
      assert spec.points[..i + 1] == spec.points[..i] + [s.point];
      assert spec.normals[..i + 1] == spec.normals[..i] + [s.normal];
      assert spec.tangents[..i + 1] == spec.tangents[..i] + [s.tangent];
    }
    assert points == spec.points && normals == spec.normals && tangents == spec.tangents;
    g := CrossSectionGeometry(points, normals, tangents, SectionNormal(cs, m));
  }

  /** The inner loop of `generate_multi_ring_geometry`: the largest reach along
      `dir` over all rings, then at least 0.1. */
  method MaxReach(rings: seq<ComponentRing>, dir: Vec2, m: Math) returns (d: real)
    ensures d == SampleDistance(rings, dir, m)
  {
    d := 0.0;
    for k := 0 to |rings|
      invariant d == ReachUpTo(rings, k, dir, m)
    {
      var ring := rings[k];
      var projection := Dot2(ring.offset, dir);
      var reach := projection + ring.radius;
      var distance := CentreDistance(ring.offset, dir, projection, m);
      if distance <= ring.radius {
        var intersection := FarIntersection(projection, ring.radius, distance, m);
        assert intersection == RingReach(ring, dir, m);
        d := Max(d, intersection);
      } else {
        assert reach == RingReach(ring, dir, m);
        d := Max(d, reach);
      }
    }
    d := Max(d, MinReach);
  }

  /** One pass of the outer loop of `generate_multi_ring_geometry`: sample `i`. */
  method MultiRingSample(cs: CrossSection, i: nat, resolution: nat, m: Math) returns (s: Sample)
    requires i < resolution
    ensures s == MultiSample(cs, i, resolution, m)
  {
    var dir := Direction(i, resolution, m);
    var d := MaxReach(cs.rings, dir, m);
    s := OutlineSample(cs, dir, d, m);
  }

  /** The outer loop of `generate_multi_ring_geometry`. */
  method GenerateMultiRingGeometry(cs: CrossSection, resolution: nat, m: Math) returns (g: CrossSectionGeometry)
    ensures g == MultiRingGeometry(cs, resolution, m)
  {
    ghost var spec := MultiRingGeometry(cs, resolution, m);
    var points, normals, tangents := [], [], [];
    for i := 0 to resolution
      invariant points == spec.points[..i] && normals == spec.normals[..i] && tangents == spec.tangents[..i]
    {
      var s := MultiRingSample(cs, i, resolution, m);
      points, normals, tangents := points + [s.point], normals + [s.normal], tangents + [s.tangent];
      assert spec.points[..i + 1] == spec.points[..i] + [s.point];
      assert spec.normals[..i + 1] == spec.normals[..i] + [s.normal];
      assert spec.tangents[..i + 1] == spec.tangents[..i] + [s.tangent];
    }
    assert points == spec.points && normals == spec.normals && tangents == spec.tangents;
    g := CrossSectionGeometry(points, normals, tangents, SectionNormal(cs, m));
  }

  /** `generate_unified_geometry`, dispatching on the number of rings. */
  method GenerateUnifiedGeometry(cs: CrossSection, resolution: nat, m: Math) returns (g: CrossSectionGeometry)
    ensures g == UnifiedGeometry(cs, resolution, m)
  {
    if |cs.rings| == 0 {
      return CrossSectionGeometry([], [], [], SectionNormal(cs, m));
    }
    if |cs.rings| == 1 {
      g := GenerateSingleRingGeometry(cs, cs.rings[0], resolution, m);
      return;
    }
    g := GenerateMultiRingGeometry(cs, resolution, m);
  }
}
