/** Twig placement at one attachment point (`TwigPlacer::generate_twigs_at_position`):
    one draw fixes how many twigs there are, then each twig takes three draws, for
    its azimuth, its tilt variation and its scale. */
module TwigPlacement {
  import opened Geometry
  import opened Structure
  import opened Random

  /** The most twigs one attachment point receives. */
  const MaxTwigs: nat := 12

  /** `(x as u32).max(1).min(12)`: the twig count for a count draw `x`. */
  function TwigCount(x: real): (n: nat)
    ensures 1 <= n <= MaxTwigs
    ensures x < 1.0 ==> n == 1
    ensures x >= MaxTwigs as real ==> n == MaxTwigs
    ensures 1.0 <= x < MaxTwigs as real ==> n as real <= x < n as real + 1.0
  {
    var t := TruncU32(x);
    if t < 1 then 1 else if t > MaxTwigs then MaxTwigs else t
  }

  /** The twig type chosen from the radius of the branch it grows on. */
  function TwigTypeFor(branchRadius: real): TwigType
  {
    if branchRadius < 0.02 then LeafCluster
    else if branchRadius < 0.04 then BranchTip
    else SmallBranch
  }

  /** The three radius bands of `TwigTypeFor`, each in both directions. */
  lemma TwigTypeBands(branchRadius: real)
    ensures TwigTypeFor(branchRadius) == LeafCluster <==> branchRadius < 0.02
    ensures TwigTypeFor(branchRadius) == BranchTip <==> 0.02 <= branchRadius < 0.04
    ensures TwigTypeFor(branchRadius) == SmallBranch <==> 0.04 <= branchRadius
  {
  }

  /** The azimuth of twig `i` of `count`, read at `pos`: a free draw in `[0, 2π)`
      for a lone twig, otherwise the evenly spaced angle `i / count · 2π` plus a
      jitter drawn from `[-0.5, 0.5)`. */
  function Azimuth(words: nat -> Word, pos: nat, i: nat, count: nat): (angle: real)
    requires 1 <= count
    ensures count == 1 ==> 0.0 <= angle < 2.0 * Pi
    ensures count > 1 ==>
      var even := (i as real / count as real) * 2.0 * Pi;
      even - 0.5 <= angle < even + 0.5
  {
    if count == 1 then RealIn(words, pos, 0.0, 2.0 * Pi)
    else (i as real / count as real) * 2.0 * Pi + RealIn(words, pos, -0.5, 0.5)
  }

  /** The tilt variation, read at `pos`: the angle variation times a draw from
      `[-1, 1)`, so never farther from 0 than the variation itself. */
  function Variation(words: nat -> Word, pos: nat, angleVariation: real): (v: real)
    ensures -Abs(angleVariation) <= v <= Abs(angleVariation)
  {
    var d := RealIn(words, pos, -1.0, 1.0);
    ScaledUnitWithin(angleVariation, d);
    angleVariation * d
  }

  /** A factor in `[-1, 1]` does not scale `a` beyond `|a|`; a helper for `Variation`. */
  lemma ScaledUnitWithin(a: real, d: real)
    requires -1.0 <= d <= 1.0
    ensures -Abs(a) <= a * d <= Abs(a)
  {
    if a >= 0.0 {
      MulMono(a, -1.0, d);
      MulMono(a, d, 1.0);
    } else {
      MulAnti(a, -1.0, d);
      MulAnti(a, d, 1.0);
    }
  }

  /** Multiplying by a non-negative factor keeps the order; proof plumbing for
      `ScaledUnitWithin`, which bounds the tilt variation. */
  lemma MulMono(m: real, x: real, y: real)
    requires 0.0 <= m && x <= y
    ensures m * x <= m * y
  {
  }

  /** Multiplying by a non-positive factor reverses the order; proof plumbing for
      `ScaledUnitWithin`. */
  lemma MulAnti(m: real, x: real, y: real)
    requires m <= 0.0 && x <= y
    ensures m * y <= m * x
  {
  }

  /** The tilt of a twig away from its branch: 45° plus the variation times 30°. */
  function TiltAngle(variation: real): (tilt: real)
  {
    Radians(45.0) + variation * Radians(30.0)
  }

  /** With the variation within `[-av, av]`, the tilt lies within
      `45° ± av · 30°`. */
  lemma TiltRange(variation: real, angleVariation: real)
    requires -angleVariation <= variation <= angleVariation
    ensures Radians(45.0) - angleVariation * Radians(30.0) <= TiltAngle(variation)
    ensures TiltAngle(variation) <= Radians(45.0) + angleVariation * Radians(30.0)
  {
    MulLeq(-angleVariation, variation, Radians(30.0));
    MulLeq(variation, angleVariation, Radians(30.0));
  }

  /** The direction of a twig: leaning `TiltAngle(variation)` away from the branch
      direction, at the given azimuth around it. */
  function TwigDirection(direction: Vec3, azimuth: real, variation: real, m: Math): Vec3
  {
    var up := if Abs(direction.y) < 0.9 then UnitY else UnitX;
    var right := m.normalize(Cross(direction, up));
    var forward := m.normalize(Cross(right, direction));
    var tilt := TiltAngle(variation);
    m.normalize(Add(Scale(direction, m.cos(tilt)),
      Scale(Add(Scale(right, m.cos(azimuth)), Scale(forward, m.sin(azimuth))), m.sin(tilt))))
  }

  /** One twig from its three drawn values: it sits half the branch radius out along
      its direction and is rotated from the Y axis onto it. */
  function TwigFromDraws(position: Vec3, direction: Vec3, branchRadius: real,
                         azimuth: real, variation: real, scale: real, m: Math): Twig
  {
    var twigDirection := TwigDirection(direction, azimuth, variation, m);
    Twig(Add(position, Scale(twigDirection, branchRadius * 0.5)), m.rotationArc(UnitY, twigDirection),
         scale, TwigTypeFor(branchRadius))
  }

  /** Twig `i` of `count`, whose three draws are read at `pos`, `pos + 1`, `pos + 2`:
      its type is the one the branch radius selects and its scale lies in
      `[scale_min, scale_max]`. */
  function TwigAt(words: nat -> Word, pos: nat, i: nat, count: nat, position: Vec3, direction: Vec3,
                  branchRadius: real, tp: TwigGenerationParams, m: Math): (twig: Twig)
    requires 1 <= count && tp.scaleMin <= tp.scaleMax
    ensures twig.twigType == TwigTypeFor(branchRadius)
    ensures tp.scaleMin <= twig.scale <= tp.scaleMax
  {
    TwigFromDraws(position, direction, branchRadius, Azimuth(words, pos, i, count),
                  Variation(words, pos + 1, tp.angleVariation), RealIn(words, pos + 2, tp.scaleMin, tp.scaleMax), m)
  }

  /** The first `k` twigs of `count`, the draws of twig `i` starting at `pos + 3i`. */
  function TwigsUpTo(words: nat -> Word, pos: nat, k: nat, count: nat, position: Vec3, direction: Vec3,
                     branchRadius: real, tp: TwigGenerationParams, m: Math): (twigs: seq<Twig>)
    requires 1 <= count && tp.scaleMin <= tp.scaleMax
    ensures |twigs| == k
  {
    seq(k, j requires 0 <= j < k => TwigAt(words, pos + 3 * j, j, count, position, direction, branchRadius, tp, m))
  }

  /** The count draw at `pos`: `gen_range(d..=3d)` with `d` the density. */
  function CountDraw(words: nat -> Word, pos: nat, tp: TwigGenerationParams): real
    requires 0.0 <= tp.density
  {
    var base := tp.density * 2.0;
    RealIn(words, pos, base * 0.5, base * 1.5)
  }

  /** The twigs one placement call appends when its first draw is at `pos`. */
  function PlacedTwigs(words: nat -> Word, pos: nat, position: Vec3, direction: Vec3,
                       branchRadius: real, tp: TwigGenerationParams, m: Math): seq<Twig>
    requires 0.0 <= tp.density && tp.scaleMin <= tp.scaleMax
  {
    var count := TwigCount(CountDraw(words, pos, tp));
    TwigsUpTo(words, pos + 1, count, count, position, direction, branchRadius, tp, m)
  }

  /** One more twig: the next one's draws start three words further on. */
  lemma TwigsUpToStep(words: nat -> Word, pos: nat, k: nat, count: nat, position: Vec3, direction: Vec3,
                      branchRadius: real, tp: TwigGenerationParams, m: Math)
    requires 1 <= count && tp.scaleMin <= tp.scaleMax
    ensures TwigsUpTo(words, pos, k + 1, count, position, direction, branchRadius, tp, m)
         == TwigsUpTo(words, pos, k, count, position, direction, branchRadius, tp, m)
            + [TwigAt(words, pos + 3 * k, k, count, position, direction, branchRadius, tp, m)]
  {
  }

  /** What one placement call appends: between 1 and 12 twigs, as many as the count
      draw truncated (1 below 1, 12 from 12 up), all of the type the branch radius
      selects and each scaled within `[scale_min, scale_max]`. */
  lemma PlacedTwigsFacts(words: nat -> Word, pos: nat, position: Vec3, direction: Vec3,
                         branchRadius: real, tp: TwigGenerationParams, m: Math)
    requires 0.0 <= tp.density && tp.scaleMin <= tp.scaleMax
    ensures tp.density <= CountDraw(words, pos, tp) <= 3.0 * tp.density
    ensures var n := |PlacedTwigs(words, pos, position, direction, branchRadius, tp, m)|;
      var x := CountDraw(words, pos, tp);
      && 1 <= n <= MaxTwigs
      && (x < 1.0 ==> n == 1)
      && (x >= MaxTwigs as real ==> n == MaxTwigs)
      && (1.0 <= x < MaxTwigs as real ==> n as real <= x < n as real + 1.0)
    ensures forall i :: 0 <= i < |PlacedTwigs(words, pos, position, direction, branchRadius, tp, m)| ==>
      PlacedTwigs(words, pos, position, direction, branchRadius, tp, m)[i].twigType == TwigTypeFor(branchRadius)
    ensures forall i :: 0 <= i < |PlacedTwigs(words, pos, position, direction, branchRadius, tp, m)| ==>
      tp.scaleMin <= PlacedTwigs(words, pos, position, direction, branchRadius, tp, m)[i].scale <= tp.scaleMax
  {
  }

  /** `generate_twigs_at_position` on the tree's twig list: appends
      `PlacedTwigs` and advances the generator by one count draw and three draws
      per twig. */
  method GenerateTwigsAtPosition(tree: TreeStructure, position: Vec3, direction: Vec3, branchRadius: real,
                                 tp: TwigGenerationParams, m: Math, rng: Rng)
    requires 0.0 <= tp.density && tp.scaleMin <= tp.scaleMax
    modifies tree`twigs, rng
    ensures tree.twigs == old(tree.twigs) + PlacedTwigs(rng.words, old(rng.pos), position, direction, branchRadius, tp, m)
    ensures rng.pos == old(rng.pos) + 1 + 3 * |PlacedTwigs(rng.words, old(rng.pos), position, direction, branchRadius, tp, m)|
  {
    ghost var words := rng.words;
    ghost var start := rng.pos;
    var base := tp.density * 2.0;
    var x := rng.GenRange(base * 0.5, base * 1.5);
    var count := TwigCount(x);
    assert count == TwigCount(CountDraw(words, start, tp));
    AppendTwigs(tree, count, position, direction, branchRadius, tp, m, rng);
    assert PlacedTwigs(words, start, position, direction, branchRadius, tp, m)
        == TwigsUpTo(words, start + 1, count, count, position, direction, branchRadius, tp, m);
  }

  /** The loop of `generate_twigs_at_position`: `count` twigs, three draws each. */
  method AppendTwigs(tree: TreeStructure, count: nat, position: Vec3, direction: Vec3, branchRadius: real,
                     tp: TwigGenerationParams, m: Math, rng: Rng)
    requires 1 <= count && tp.scaleMin <= tp.scaleMax
    modifies tree`twigs, rng
    ensures tree.twigs == old(tree.twigs) + TwigsUpTo(rng.words, old(rng.pos), count, count, position, direction, branchRadius, tp, m)
    ensures rng.pos == old(rng.pos) + 3 * count
  {
    ghost var words := rng.words;
    ghost var start := rng.pos;
    ghost var before := tree.twigs;
    for i := 0 to count
      invariant rng.pos == start + 3 * i
      invariant tree.twigs == before + TwigsUpTo(words, start, i, count, position, direction, branchRadius, tp, m)
    {
      var twig := DrawTwig(start, i, count, position, direction, branchRadius, tp, m, rng);
      tree.twigs := tree.twigs + [twig];
    }
  }

  /** Twig `i`, made from the next three draws, which are the ones `TwigsUpTo`
      assigns to it. */
  method DrawTwig(ghost start: nat, i: nat, count: nat, position: Vec3, direction: Vec3, branchRadius: real,
                  tp: TwigGenerationParams, m: Math, rng: Rng) returns (twig: Twig)
    requires i < count && tp.scaleMin <= tp.scaleMax
    requires rng.pos == start + 3 * i
    modifies rng
    ensures TwigsUpTo(rng.words, start, i + 1, count, position, direction, branchRadius, tp, m)
         == TwigsUpTo(rng.words, start, i, count, position, direction, branchRadius, tp, m) + [twig]
    ensures rng.pos == old(rng.pos) + 3
  {
    var azimuth, variation, scale := DrawTwigValues(i, count, tp, rng);
    twig := TwigFromDraws(position, direction, branchRadius, azimuth, variation, scale, m);
    TwigsUpToStep(rng.words, start, i, count, position, direction, branchRadius, tp, m);
  }

  /** The three draws of one twig, in the source's order: azimuth, tilt variation,
      scale. */
  method DrawTwigValues(i: nat, count: nat, tp: TwigGenerationParams, rng: Rng)
    returns (azimuth: real, variation: real, scale: real)
    requires 1 <= count && tp.scaleMin <= tp.scaleMax
    modifies rng
    ensures azimuth == Azimuth(rng.words, old(rng.pos), i, count)
    ensures variation == Variation(rng.words, old(rng.pos) + 1, tp.angleVariation)
    ensures scale == RealIn(rng.words, old(rng.pos) + 2, tp.scaleMin, tp.scaleMax)
    ensures rng.pos == old(rng.pos) + 3
  {
    if count == 1 {
      azimuth := rng.GenRange(0.0, 2.0 * Pi);
    } else {
      var jitter := rng.GenRange(-0.5, 0.5);
      azimuth := (i as real / count as real) * 2.0 * Pi + jitter;
    }
    var d := rng.GenRange(-1.0, 1.0);
    variation := tp.angleVariation * d;
    scale := rng.GenRange(tp.scaleMin, tp.scaleMax);
  }
}
