/** The coordinated recursive growth engine. From a cross-section it either stops,
    appends one tapered continuation cross-section and recurses, or appends a
    trunk continuation and a branch (two children one level deeper) and recurses
    into the trunk child before the branch child.

    `Grow` and `CreateBranches` are the specification: they give the arena and the
    random-stream position after a call, as functions of the arena and position
    before it. `GenerateCoordinatedRecursive` and `CreateCoordinatedBranches` are the
    in-place engine, proved to produce exactly that state. */
module Branching {
  import opened Geometry
  import opened Structure
  import opened Parameters
  import opened Random
  import opened Rings

  /** The parameters one pass of the engine reads, and the float mathematics. */
  datatype Config = Config(
    general: GeneralParams,
    trunk: TrunkParams,
    branching: BranchingParams,
    math: Math)

  /** `(height / segment_length).ceil() as u32`, with the float edge cases of a zero
      segment length (+inf saturates, NaN and -inf become 0). */
  function MinSegmentsForHeight(height: real, segmentLength: real): (n: nat)
    ensures n <= U32Max
    ensures segmentLength > 0.0 && 0.0 < height / segmentLength <= U32Max as real ==>
      height / segmentLength <= n as real < height / segmentLength + 1.0
  {
    if segmentLength == 0.0 then (if height > 0.0 then U32Max else 0)
    else
      var q := height / segmentLength;
      var c := -((-q).Floor);
      TruncU32(c as real)
  }

  /** The per-depth segment cap. At depths 0 to 2 it is
      `(min_segments_for_height + 10).max(20)`, the addition wrapping in `u32`;
      deeper levels get the fixed caps 8, 4, 3, 2 and finally 1. */
  function MaxSegmentsAtDepth(t: TrunkParams, depth: nat): (cap: nat)
    ensures cap >= 1
    ensures depth <= 2 ==> cap >= 20
    ensures depth <= 2 && MinSegmentsForHeight(t.height, t.segmentLength) + 10 <= U32Max ==>
      cap == (if MinSegmentsForHeight(t.height, t.segmentLength) + 10 >= 20
              then MinSegmentsForHeight(t.height, t.segmentLength) + 10 else 20)
    ensures 3 <= depth <= 5 ==> cap == 8
    ensures 6 <= depth <= 8 ==> cap == 4
    ensures 9 <= depth <= 12 ==> cap == 3
    ensures 13 <= depth <= 16 ==> cap == 2
    ensures depth > 16 ==> cap == 1
  {
    if depth <= 2 then
      var wrapped := (MinSegmentsForHeight(t.height, t.segmentLength) + 10) % (U32Max + 1);
      if wrapped >= 20 then wrapped else 20
    else if depth <= 5 then 8
    else if depth <= 8 then 4
    else if depth <= 12 then 3
    else if depth <= 16 then 2
    else 1
  }

  /** Bend angles are scaled down near the trunk. */
  function BendReduction(depth: nat): (f: real)
    ensures 0.0 < f <= 1.0
  {
    if depth <= 1 then 0.1 else if depth <= 3 then 0.3 else if depth <= 5 then 0.6 else 1.0
  }

  /** Sum of the squared ring radii: `sum(PI * r^2) / PI`. */
  function SumSquares(rings: seq<ComponentRing>): (s: real)
    ensures s >= 0.0
  {
    if rings == [] then 0.0
    else SumSquares(rings[..|rings| - 1]) + rings[|rings| - 1].radius * rings[|rings| - 1].radius
  }

  /** No single ring's squared radius exceeds the sum of squares. */
  lemma {:induction false} RingWithinSumSquares(rings: seq<ComponentRing>)
    ensures forall j :: 0 <= j < |rings| ==> rings[j].radius * rings[j].radius <= SumSquares(rings)
  {
    if rings != [] {
      var init := rings[..|rings| - 1];
      RingWithinSumSquares(init);
      forall j | 0 <= j < |rings|
        ensures rings[j].radius * rings[j].radius <= SumSquares(rings)
      {
        if j < |rings| - 1 {
          assert rings[j] == init[j];
        }
      }
    }
  }

  /** A section holding any ring of radius at least 0.005 is never stopped as too thin. */
  lemma WideRingNotTooThin(rings: seq<ComponentRing>, j: nat)
    requires j < |rings| && rings[j].radius >= 0.005
    ensures !TooThin(rings)
  {
    RingWithinSumSquares(rings);
    var r := rings[j].radius;
    MulLeq(0.005, r, 0.005);
    MulLeq(0.005, r, r);
  }

  /** The effective radius `sqrt(sum(PI * r^2) / PI)` is below 0.005 exactly when the
      sum of squares is below 0.005^2. */
  predicate TooThin(rings: seq<ComponentRing>)
  {
    SumSquares(rings) < 0.000025
  }

  /** The centre's distance from the origin exceeds `1.5 * max_reach`, stated on
      squares (a negative limit is exceeded by every distance). */
  predicate TooFar(center: Vec3, maxReach: real)
  {
    var limit := 1.5 * maxReach;
    limit < 0.0 || LengthSq(center) > limit * limit
  }

  /** The hard stops, in the order the engine checks them. */
  predicate Stops(cfg: Config, cs: CrossSection, depth: nat, atDepth: nat)
  {
    || depth >= cfg.general.maxDepth
    || atDepth >= MaxSegmentsAtDepth(cfg.trunk, depth)
    || |cs.rings| == 0
    || TooThin(cs.rings)
    || TooFar(cs.center, cfg.branching.maxReach)
  }

  /** The outcome of the five draws of one step: the bent direction, the next
      centre, the branching threshold, and the stream position after them. */
  datatype Step = Step(bent: Vec3, nextCenter: Vec3, threshold: nat, pos: nat)

  /** Frequency bounds as the engine uses them: `min.max(1)` and `max.max(min')`. */
  function FrequencyMin(b: BranchingParams): nat { if b.frequencyMin >= 1 then b.frequencyMin else 1 }
  function FrequencyMax(b: BranchingParams): nat
  {
    if b.frequencyMax >= FrequencyMin(b) then b.frequencyMax else FrequencyMin(b)
  }

  /** Bend angle range at `depth`, ordered, in degrees. */
  function BendMin(b: BranchingParams, depth: nat): real { Min(b.bendAngleMin, b.bendAngleMax) * BendReduction(depth) }
  function BendMax(b: BranchingParams, depth: nat): real { Max(b.bendAngleMax, b.bendAngleMin) * BendReduction(depth) }

  lemma BendRangeOrdered(b: BranchingParams, depth: nat)
    ensures BendMin(b, depth) <= BendMax(b, depth)
  {
    var f := BendReduction(depth);
    MulLeq(Min(b.bendAngleMin, b.bendAngleMax), Max(b.bendAngleMax, b.bendAngleMin), f);
  }

  /** Draws, in order: bend angle, bend axis x, bend axis z, length variation,
      branching threshold. */
  function Advance(cfg: Config, words: nat -> Word, pos: nat, center: Vec3, dir: Vec3, depth: nat): (st: Step)
    ensures st.pos == pos + 5
    ensures FrequencyMin(cfg.branching) <= st.threshold <= FrequencyMax(cfg.branching)
  {
    BendRangeOrdered(cfg.branching, depth);
    StepFrom(cfg, center, dir,
             RealIn(words, pos, BendMin(cfg.branching, depth), BendMax(cfg.branching, depth)),
             RealIn(words, pos + 1, -1.0, 1.0), RealIn(words, pos + 2, -1.0, 1.0),
             RealIn(words, pos + 3, -1.0, 1.0),
             IntIn(words, pos + 4, FrequencyMin(cfg.branching), FrequencyMax(cfg.branching)), pos + 5)
  }

  /** One growth step from drawn values: the direction is bent by `bendDegrees` about
      the horizontal axis `(axisX, 0, axisZ)`, and the centre moves along it by the
      varied segment length. */
  function StepFrom(cfg: Config, center: Vec3, dir: Vec3, bendDegrees: real, axisX: real, axisZ: real,
                    variation: real, threshold: nat, pos: nat): (st: Step)
    ensures st.threshold == threshold && st.pos == pos
    ensures st.nextCenter == Add(center, Scale(st.bent, SegmentLength(cfg.trunk, variation)))
  {
    var m := cfg.math;
    var axis := m.normalize(Vec3(axisX, 0.0, axisZ));
    var bent := m.normalize(m.axisAngle(axis, Radians(bendDegrees), dir));
    Step(bent, Add(center, Scale(bent, SegmentLength(cfg.trunk, variation))), threshold, pos)
  }

  /** A step's length: the segment length scaled by `1 + variation * segment_length_variation`,
      the scale floored at 0.1; a positive segment length thus gives a step of at
      least a tenth of it. */
  function SegmentLength(t: TrunkParams, variation: real): (length: real)
    ensures t.segmentLength >= 0.0 ==> length >= 0.1 * t.segmentLength
  {
    var scale := Max(1.0 + variation * t.segmentLengthVariation, 0.1);
    assert t.segmentLength >= 0.0 ==> t.segmentLength * scale >= t.segmentLength * 0.1 by {
      if t.segmentLength > 0.0 { MulLeq(0.1, scale, t.segmentLength); }
    }
    t.segmentLength * scale
  }

  /** The branch decision: enough segments since the last branch point, high enough,
      and room for one more level (`depth < max_depth - 1`). */
  predicate ShouldBranch(cfg: Config, sinceBranch: nat, st: Step, depth: nat)
  {
    sinceBranch >= st.threshold && st.nextCenter.y >= cfg.trunk.splitHeight && depth + 1 < cfg.general.maxDepth
  }

  /** The taper of one continuation segment, `1 - (1 - radius_taper) * factor`,
      with factor 0.05 or 0.4 (below or above the trunk height), halved for more
      than two rings. */
  function ContinuationTaper(cfg: Config, ringCount: nat, nextY: real): (taper: real)
    ensures cfg.branching.radiusTaper <= 1.0 ==> taper <= 1.0
    ensures 0.0 <= cfg.branching.radiusTaper ==> 0.6 <= taper
  {
    var buttressing := if ringCount > 2 then 0.5 else 1.0;
    var base := if nextY < cfg.trunk.height then 0.05 else 0.4;
    var factor := base * buttressing;
    var loss := 1.0 - cfg.branching.radiusTaper;
    assert loss >= 0.0 ==> loss * factor >= 0.0;
    assert loss <= 1.0 ==> loss * factor <= factor by {
      if loss <= 1.0 { MulLeq(loss, 1.0, factor); }
    }
    1.0 - loss * factor
  }

  /** Continuation ring `i`: tapered, and at depth 0 a trunk or side lobe also has
      its offset pulled in by the flare factor of the new height. */
  function ContinuationRing(cfg: Config, ring: ComponentRing, taper: real, depth: nat, nextY: real): ComponentRing
  {
    var child := ChildRing(ring, taper);
    if (child.ringType == MainTrunk || child.ringType == SideBranch) && depth == 0 then
      child.(offset := Scale2(child.offset, HeightFactor(nextY, cfg.trunk.height)))
    else child
  }

  /** The rings of a continuation cross-section: one child per parent ring, in order. */
  function ContinuationRings(cfg: Config, rings: seq<ComponentRing>, taper: real, depth: nat, nextY: real): (child: seq<ComponentRing>)
    ensures |child| == |rings|
    ensures forall i :: 0 <= i < |rings| ==>
      child[i].ringType == rings[i].ringType && child[i].radius == rings[i].radius * taper
    ensures forall i :: 0 <= i < |rings| ==>
      child[i].offset == (if depth == 0 && !rings[i].ringType.Root? then
                            Scale2(rings[i].offset, HeightFactor(nextY, cfg.trunk.height))
                          else rings[i].offset)
  {
    seq(|rings|, i requires 0 <= i < |rings| => ContinuationRing(cfg, rings[i], taper, depth, nextY))
  }

  /** The continuation loop: one tapered child ring pushed per parent ring. */
  method ContinueRings(cfg: Config, rings: seq<ComponentRing>, taper: real, depth: nat, nextY: real)
    returns (child: seq<ComponentRing>)
    ensures child == ContinuationRings(cfg, rings, taper, depth, nextY)
  {
    child := [];
    for i := 0 to |rings|
      invariant child == ContinuationRings(cfg, rings[..i], taper, depth, nextY)
    {
      assert rings[..i + 1] == rings[..i] + [rings[i]];
      child := child + [ContinuationRing(cfg, rings[i], taper, depth, nextY)];
    }
    assert rings[..|rings|] == rings;
  }

  /** The next cross-section of a continuation. */
  function ContinuationSection(cfg: Config, rings: seq<ComponentRing>, st: Step, depth: nat): CrossSection
  {
    var taper := ContinuationTaper(cfg, |rings|, st.nextCenter.y);
    CrossSection(st.nextCenter, cfg.math.rotationArc(UnitY, st.bent), depth,
                 ContinuationRings(cfg, rings, taper, depth, st.nextCenter.y), [])
  }

  /** The taper at a branch point, `1 - (1 - radius_taper) * 0.15`. */
  function BranchTaper(b: BranchingParams): (taper: real)
    ensures b.radiusTaper <= 1.0 ==> taper <= 1.0
    ensures 0.0 <= b.radiusTaper ==> 0.85 <= taper
  {
    1.0 - (1.0 - b.radiusTaper) * 0.15
  }

  /** Ring `i` of `n` at a branch point goes to the trunk (all but the last, at
      `taper * 0.95`) or to the branch (the last, at `taper`); a single ring goes
      to both, at `taper * 0.95` and `taper * 0.8`. */
  function SplitRings(rings: seq<ComponentRing>, taper: real): (split: (seq<ComponentRing>, seq<ComponentRing>))
    ensures |rings| == 1 ==>
      split.0 == [ChildRing(rings[0], taper * 0.95)] && split.1 == [ChildRing(rings[0], taper * 0.8)]
    ensures |rings| > 1 ==>
      |split.0| == |rings| - 1 && split.1 == [ChildRing(rings[|rings| - 1], taper)]
    ensures |rings| > 1 ==> forall i :: 0 <= i < |rings| - 1 ==> split.0[i] == ChildRing(rings[i], taper * 0.95)
    ensures |rings| == 0 ==> split.0 == [] && split.1 == []
  {
    if |rings| == 0 then ([], [])
    else if |rings| == 1 then ([ChildRing(rings[0], taper * 0.95)], [ChildRing(rings[0], taper * 0.8)])
    else (seq(|rings| - 1, i requires 0 <= i < |rings| - 1 => ChildRing(rings[i], taper * 0.95)),
          [ChildRing(rings[|rings| - 1], taper)])
  }

  /** The splitting loop of `create_coordinated_branches`, pushing ring by ring. */
  method SplitRingsLoop(rings: seq<ComponentRing>, taper: real)
    returns (trunkRings: seq<ComponentRing>, branchRings: seq<ComponentRing>)
    ensures (trunkRings, branchRings) == SplitRings(rings, taper)
  {
    trunkRings, branchRings := [], [];
    for i := 0 to |rings|
      invariant |rings| == 0 ==> trunkRings == [] && branchRings == []
      invariant |rings| == 1 ==>
        (i == 0 ==> trunkRings == [] && branchRings == []) &&
        (i == 1 ==> trunkRings == [ChildRing(rings[0], taper * 0.95)] && branchRings == [ChildRing(rings[0], taper * 0.8)])
      invariant |rings| > 1 ==> |trunkRings| == (if i == |rings| then i - 1 else i)
      invariant |rings| > 1 ==> forall j :: 0 <= j < |trunkRings| ==> trunkRings[j] == ChildRing(rings[j], taper * 0.95)
      invariant |rings| > 1 ==> branchRings == (if i == |rings| then [ChildRing(rings[|rings| - 1], taper)] else [])
    {
      if |rings| == 1 {
        trunkRings := trunkRings + [ChildRing(rings[i], taper * 0.95)];
        branchRings := branchRings + [ChildRing(rings[i], taper * 0.8)];
      } else if i == |rings| - 1 {
        branchRings := branchRings + [ChildRing(rings[i], taper)];
      } else {
        trunkRings := trunkRings + [ChildRing(rings[i], taper * 0.95)];
      }
    }
    if |rings| > 1 {
      assert trunkRings == SplitRings(rings, taper).0;
    }
  }

  /** The branch direction at a branch point, and the stream position after its
      draws: the branch angle, then the azimuth when `azimuth_variation > 0`. */
  function BranchDirection(cfg: Config, words: nat -> Word, pos: nat, main: Vec3): (r: (Vec3, nat))
    ensures r.1 == pos + (if cfg.branching.azimuthVariation > 0.0 then 2 else 1)
  {
    var b := cfg.branching;
    var planar := PlanarDirection(cfg, main, RealIn(words, pos, Min(b.angleMin, b.angleMax), Max(b.angleMax, b.angleMin)));
    if b.azimuthVariation > 0.0 then
      (AzimuthDirection(cfg, main, planar, RealIn(words, pos + 1, 0.0, 2.0 * Pi)), pos + 2)
    else (planar, pos + 1)
  }

  /** `main` tilted by `angleDegrees` about the horizontal perpendicular `main x Y`,
      or about X when `main` is (nearly) vertical: `|main x Y| > 0.1`, on squares. */
  function PlanarDirection(cfg: Config, main: Vec3, angleDegrees: real): Vec3
  {
    var m := cfg.math;
    var side := Cross(main, UnitY);
    var perpendicular := if LengthSq(side) > 0.01 then m.normalize(side) else UnitX;
    m.normalize(m.axisAngle(perpendicular, Radians(angleDegrees), main))
  }

  /** `planar` turned about `main` by the drawn azimuth scaled by `azimuth_variation`. */
  function AzimuthDirection(cfg: Config, main: Vec3, planar: Vec3, azimuthDraw: real): Vec3
  {
    cfg.math.normalize(cfg.math.axisAngle(main, azimuthDraw * cfg.branching.azimuthVariation, planar))
  }

  /** Arena and stream position: the state the engine threads through. */
  datatype GrowState = GrowState(arena: seq<CrossSection>, pos: nat)

  /** What a call on entry `idx` at `depth` may do to the arena: append entries,
      add children to `idx` only, and nothing else. Appended entries have depths in
      `[depth, max_depth)` and point only forward, within the arena. */
  ghost predicate Grown(cfg: Config, a: seq<CrossSection>, r: seq<CrossSection>, idx: nat, depth: nat)
    requires idx < |a|
  {
    && |a| <= |r|
    && (forall i :: 0 <= i < |a| && i != idx ==> r[i] == a[i])
    && r[idx] == a[idx].(children := r[idx].children)
    && |a[idx].children| <= |r[idx].children|
    && r[idx].children[..|a[idx].children|] == a[idx].children
    && (forall k :: |a[idx].children| <= k < |r[idx].children| ==> |a| <= r[idx].children[k] < |r|)
    && (forall i :: |a| <= i < |r| ==> depth <= r[i].depth < cfg.general.maxDepth)
    && (forall i, k :: |a| <= i < |r| && 0 <= k < |r[i].children| ==> i < r[i].children[k] < |r|)
  }

  /** `generate_coordinated_recursive` on entry `idx`: the arena only grows and the
      stream only advances. */
  function Grow(cfg: Config, words: nat -> Word, s: GrowState, idx: nat, dir: Vec3,
                depth: nat, sinceBranch: nat, atDepth: nat): (r: GrowState)
    requires idx < |s.arena|
    ensures |s.arena| <= |r.arena| && s.pos <= r.pos
    decreases cfg.general.maxDepth - depth, MaxSegmentsAtDepth(cfg.trunk, depth) - atDepth, 1
  {
    if Stops(cfg, s.arena[idx], depth, atDepth) then s
    else GrowStep(cfg, words, s, idx, dir, depth, sinceBranch, atDepth)
  }

  /** One step of `Grow` past the hard stops: draw the step, then branch or continue. */
  function GrowStep(cfg: Config, words: nat -> Word, s: GrowState, idx: nat, dir: Vec3,
                    depth: nat, sinceBranch: nat, atDepth: nat): (r: GrowState)
    requires idx < |s.arena| && !Stops(cfg, s.arena[idx], depth, atDepth)
    ensures |s.arena| <= |r.arena| && s.pos <= r.pos
    decreases cfg.general.maxDepth - depth, MaxSegmentsAtDepth(cfg.trunk, depth) - atDepth, 0
  {
    var cs := s.arena[idx];
    var st := Advance(cfg, words, s.pos, cs.center, dir, depth);
    if ShouldBranch(cfg, sinceBranch, st, depth) then
      CreateBranches(cfg, words, GrowState(s.arena, st.pos), idx, cs.rings, st.nextCenter, st.bent, depth)
    else
      var child := ContinuationSection(cfg, cs.rings, st, depth);
      Grow(cfg, words, GrowState(AppendChild(s.arena, idx, child), st.pos), |s.arena|, st.bent,
           depth, sinceBranch + 1, atDepth + 1)
  }

  /** The trunk child and the branch child of a branch point. */
  function BranchChildren(cfg: Config, rings: seq<ComponentRing>, center: Vec3, main: Vec3,
                          branchDir: Vec3, depth: nat): (cs: (CrossSection, CrossSection))
    ensures cs.0.depth == depth + 1 && cs.1.depth == depth + 1
    ensures cs.0.children == [] && cs.1.children == []
    ensures cs.0.rings == SplitRings(rings, BranchTaper(cfg.branching)).0
    ensures cs.1.rings == SplitRings(rings, BranchTaper(cfg.branching)).1
  {
    var m := cfg.math;
    var split := SplitRings(rings, BranchTaper(cfg.branching));
    var len := cfg.trunk.segmentLength;
    (CrossSection(Add(center, Scale(main, len)), m.rotationArc(UnitY, main), depth + 1, split.0, []),
     CrossSection(Add(center, Scale(branchDir, len)), m.rotationArc(UnitY, branchDir), depth + 1, split.1, []))
  }

  /** The first half of `create_coordinated_branches`: draw the branch direction,
      split the rings, and append the trunk child and then the branch child under
      `parent`. */
  function BranchStart(cfg: Config, words: nat -> Word, s: GrowState, parent: nat,
                       rings: seq<ComponentRing>, center: Vec3, main: Vec3, depth: nat): (r: GrowState)
    requires parent < |s.arena|
    ensures |r.arena| == |s.arena| + 2 && s.pos < r.pos
  {
    var (branchDir, pos1) := BranchDirection(cfg, words, s.pos, main);
    var children := BranchChildren(cfg, rings, center, main, branchDir, depth);
    GrowState(AppendChild(AppendChild(s.arena, parent, children.0), parent, children.1), pos1)
  }

  /** `create_coordinated_branches` under parent `parent`: after `BranchStart`, grow
      the trunk child fully, then the branch child. */
  function CreateBranches(cfg: Config, words: nat -> Word, s: GrowState, parent: nat,
                          rings: seq<ComponentRing>, center: Vec3, main: Vec3, depth: nat): (r: GrowState)
    requires parent < |s.arena| && depth + 1 < cfg.general.maxDepth
    ensures |s.arena| + 2 <= |r.arena| && s.pos <= r.pos
    decreases cfg.general.maxDepth - depth, 0, 1
  {
    GrowChildren(cfg, words, BranchStart(cfg, words, s, parent, rings, center, main, depth),
                 |s.arena|, |s.arena| + 1, main, BranchDirection(cfg, words, s.pos, main).0, depth)
  }

  /** The second half of `create_coordinated_branches`: grow the trunk child
      fully, then the branch child, both one depth below `depth`. */
  function GrowChildren(cfg: Config, words: nat -> Word, s: GrowState, trunkIdx: nat, branchIdx: nat,
                        main: Vec3, branchDir: Vec3, depth: nat): (r: GrowState)
    requires trunkIdx < branchIdx < |s.arena| && depth + 1 < cfg.general.maxDepth
    ensures |s.arena| <= |r.arena| && s.pos <= r.pos
    decreases cfg.general.maxDepth - depth, 0, 0
  {
    var r1 := Grow(cfg, words, s, trunkIdx, main, depth + 1, 0, 0);
    Grow(cfg, words, r1, branchIdx, branchDir, depth + 1, 0, 0)
  }

  /** One unfolding of `Grow` in its continuation case. */
  lemma GrowContinues(cfg: Config, words: nat -> Word, s: GrowState, idx: nat, dir: Vec3,
                      depth: nat, sinceBranch: nat, atDepth: nat)
    requires idx < |s.arena| && !Stops(cfg, s.arena[idx], depth, atDepth)
    requires !ShouldBranch(cfg, sinceBranch, Advance(cfg, words, s.pos, s.arena[idx].center, dir, depth), depth)
    ensures var st := Advance(cfg, words, s.pos, s.arena[idx].center, dir, depth);
      Grow(cfg, words, s, idx, dir, depth, sinceBranch, atDepth) ==
      Grow(cfg, words, GrowState(AppendChild(s.arena, idx, ContinuationSection(cfg, s.arena[idx].rings, st, depth)), st.pos),
           |s.arena|, st.bent, depth, sinceBranch + 1, atDepth + 1)
  {
  }

  /** `Grow` at a hard stop leaves the state as it was. */
  lemma GrowStops(cfg: Config, words: nat -> Word, s: GrowState, idx: nat, dir: Vec3,
                  depth: nat, sinceBranch: nat, atDepth: nat)
    requires idx < |s.arena| && Stops(cfg, s.arena[idx], depth, atDepth)
    ensures Grow(cfg, words, s, idx, dir, depth, sinceBranch, atDepth) == s
  {
  }

  /** One unfolding of `Grow` in its branching case. */
  lemma GrowBranches(cfg: Config, words: nat -> Word, s: GrowState, idx: nat, dir: Vec3,
                     depth: nat, sinceBranch: nat, atDepth: nat)
    requires idx < |s.arena| && !Stops(cfg, s.arena[idx], depth, atDepth)
    requires ShouldBranch(cfg, sinceBranch, Advance(cfg, words, s.pos, s.arena[idx].center, dir, depth), depth)
    ensures var st := Advance(cfg, words, s.pos, s.arena[idx].center, dir, depth);
      Grow(cfg, words, s, idx, dir, depth, sinceBranch, atDepth) ==
      CreateBranches(cfg, words, GrowState(s.arena, st.pos), idx, s.arena[idx].rings, st.nextCenter, st.bent, depth)
  {
  }

  /** A call on entry `idx` appends entries, adds children to `idx` only, and
      leaves every other entry as it was. */
  lemma {:induction false} GrowFrame(cfg: Config, words: nat -> Word, s: GrowState, idx: nat, dir: Vec3,
                                     depth: nat, sinceBranch: nat, atDepth: nat)
    requires idx < |s.arena|
    ensures Grown(cfg, s.arena, Grow(cfg, words, s, idx, dir, depth, sinceBranch, atDepth).arena, idx, depth)
    decreases cfg.general.maxDepth - depth, MaxSegmentsAtDepth(cfg.trunk, depth) - atDepth, 1
  {
    var cs := s.arena[idx];
    if !Stops(cfg, cs, depth, atDepth) {
      var st := Advance(cfg, words, s.pos, cs.center, dir, depth);
      if ShouldBranch(cfg, sinceBranch, st, depth) {
        BranchesFrame(cfg, words, GrowState(s.arena, st.pos), idx, cs.rings, st.nextCenter, st.bent, depth);
      } else {
        ContinueFrame(cfg, words, s, idx, dir, depth, sinceBranch, atDepth, st);
      }
    }
  }

  /** The continuation case of `GrowFrame`. */
  lemma {:induction false} ContinueFrame(cfg: Config, words: nat -> Word, s: GrowState, idx: nat, dir: Vec3,
                                         depth: nat, sinceBranch: nat, atDepth: nat, st: Step)
    requires idx < |s.arena| && !Stops(cfg, s.arena[idx], depth, atDepth)
    requires st == Advance(cfg, words, s.pos, s.arena[idx].center, dir, depth) && !ShouldBranch(cfg, sinceBranch, st, depth)
    ensures Grown(cfg, s.arena, Grow(cfg, words, s, idx, dir, depth, sinceBranch, atDepth).arena, idx, depth)
    decreases cfg.general.maxDepth - depth, MaxSegmentsAtDepth(cfg.trunk, depth) - atDepth, 0
  {
    var child := ContinuationSection(cfg, s.arena[idx].rings, st, depth);
    var a1 := AppendChild(s.arena, idx, child);
    var r := Grow(cfg, words, GrowState(a1, st.pos), |s.arena|, st.bent, depth, sinceBranch + 1, atDepth + 1);
    assert Grow(cfg, words, s, idx, dir, depth, sinceBranch, atDepth) == r;
    GrowFrame(cfg, words, GrowState(a1, st.pos), |s.arena|, st.bent, depth, sinceBranch + 1, atDepth + 1);
    ContinuationGrown(cfg, s.arena, a1, r.arena, idx, child, depth);
  }

  /** A branch point gives its parent exactly two new children, the trunk child and
      then the branch child, one level deeper, carrying the split rings. */
  lemma {:induction false} BranchesFrame(cfg: Config, words: nat -> Word, s: GrowState, parent: nat,
                                         rings: seq<ComponentRing>, center: Vec3, main: Vec3, depth: nat)
    requires parent < |s.arena| && depth + 1 < cfg.general.maxDepth
    ensures var r := CreateBranches(cfg, words, s, parent, rings, center, main, depth);
      && Grown(cfg, s.arena, r.arena, parent, depth)
      && r.arena[parent].children == s.arena[parent].children + [|s.arena|, |s.arena| + 1]
      && r.arena[|s.arena|].depth == depth + 1 && r.arena[|s.arena| + 1].depth == depth + 1
      && r.arena[|s.arena|].rings == SplitRings(rings, BranchTaper(cfg.branching)).0
      && r.arena[|s.arena| + 1].rings == SplitRings(rings, BranchTaper(cfg.branching)).1
    decreases cfg.general.maxDepth - depth, 0, 1
  {
    var (branchDir, pos1) := BranchDirection(cfg, words, s.pos, main);
    var children := BranchChildren(cfg, rings, center, main, branchDir, depth);
    var a1 := AppendChild(AppendChild(s.arena, parent, children.0), parent, children.1);
    assert BranchStart(cfg, words, s, parent, rings, center, main, depth) == GrowState(a1, pos1);
    var r1 := Grow(cfg, words, GrowState(a1, pos1), |s.arena|, main, depth + 1, 0, 0);
    var r := GrowChildren(cfg, words, GrowState(a1, pos1), |s.arena|, |s.arena| + 1, main, branchDir, depth);
    assert CreateBranches(cfg, words, s, parent, rings, center, main, depth) == r;
    GrowChildrenFrame(cfg, words, GrowState(a1, pos1), |s.arena|, |s.arena| + 1, main, branchDir, depth);
    BranchGrown(cfg, s.arena, a1, r1.arena, r.arena, parent, children.0, children.1, depth);
  }

  /** Growing the two children of a branch point keeps each call's frame. */
  lemma {:induction false} GrowChildrenFrame(cfg: Config, words: nat -> Word, s: GrowState, trunkIdx: nat,
                                             branchIdx: nat, main: Vec3, branchDir: Vec3, depth: nat)
    requires trunkIdx < branchIdx < |s.arena| && depth + 1 < cfg.general.maxDepth
    ensures var r1 := Grow(cfg, words, s, trunkIdx, main, depth + 1, 0, 0);
      && Grown(cfg, s.arena, r1.arena, trunkIdx, depth + 1)
      && Grown(cfg, r1.arena, GrowChildren(cfg, words, s, trunkIdx, branchIdx, main, branchDir, depth).arena,
               branchIdx, depth + 1)
    decreases cfg.general.maxDepth - depth, 0, 0
  {
    var r1 := Grow(cfg, words, s, trunkIdx, main, depth + 1, 0, 0);
    GrowFrame(cfg, words, s, trunkIdx, main, depth + 1, 0, 0);
    GrowFrame(cfg, words, r1, branchIdx, branchDir, depth + 1, 0, 0);
  }


  lemma ContinuationGrown(cfg: Config, a: seq<CrossSection>, a1: seq<CrossSection>, r: seq<CrossSection>,
                          idx: nat, child: CrossSection, depth: nat)
    requires idx < |a| && a1 == AppendChild(a, idx, child)
    requires child.depth == depth < cfg.general.maxDepth && child.children == []
    requires Grown(cfg, a1, r, |a|, depth)
    ensures Grown(cfg, a, r, idx, depth)
  {
    assert r[idx] == a1[idx];
    assert a1[idx].children == a[idx].children + [|a|];
    assert r[idx].children[..|a[idx].children|] == a[idx].children;
    forall k | 0 <= k < |r[|a|].children|
      ensures |a| < r[|a|].children[k] < |r|
    {
      assert |a1[|a|].children| == 0;
    }
  }

  lemma BranchGrown(cfg: Config, a: seq<CrossSection>, a1: seq<CrossSection>, r1: seq<CrossSection>,
                    r2: seq<CrossSection>, parent: nat, t: CrossSection, b: CrossSection, depth: nat)
    requires parent < |a| && a1 == AppendChild(AppendChild(a, parent, t), parent, b)
    requires t.depth == depth + 1 && b.depth == depth + 1 && depth + 1 < cfg.general.maxDepth
    requires t.children == [] && b.children == []
    requires Grown(cfg, a1, r1, |a|, depth + 1)
    requires |a| + 1 < |r1| && Grown(cfg, r1, r2, |a| + 1, depth + 1)
    ensures Grown(cfg, a, r2, parent, depth)
    ensures r2[parent].children == a[parent].children + [|a|, |a| + 1]
    ensures r2[|a|] == t.(children := r2[|a|].children) && r2[|a| + 1] == b.(children := r2[|a| + 1].children)
  {
    var n := |a|;
    assert a1[parent].children == a[parent].children + [n, n + 1];
    assert r1[parent] == a1[parent] && r2[parent] == r1[parent];
    assert r2[parent].children[..|a[parent].children|] == a[parent].children;
    assert a1[n] == t && a1[n + 1] == b;
    assert r1[n + 1] == b;
    assert r2[n] == r1[n];
    forall k | 0 <= k < |r2[n].children| ensures n < r2[n].children[k] < |r2| {
      assert r2[n].children == r1[n].children;
    }
    forall i, k | n + 2 <= i < |r1| && 0 <= k < |r2[i].children| ensures i < r2[i].children[k] < |r2| {
      assert r2[i] == r1[i];
    }
    forall i | n <= i < |r2| ensures depth <= r2[i].depth < cfg.general.maxDepth {
      if i < |r1| && i != n + 1 { assert r2[i] == r1[i]; }
    }
  }

  /** `generate_branches`: grow from entry 0, straight up, when the arena is not empty. */
  function Branches(cfg: Config, words: nat -> Word, s: GrowState): (r: GrowState)
    ensures |s.arena| == 0 ==> r == s
    ensures |s.arena| <= |r.arena| && s.pos <= r.pos
  {
    if |s.arena| == 0 then s else Grow(cfg, words, s, 0, UnitY, 0, 0, 0)
  }

  /** The in-place engine: `generate_branches` on the tree's arena and the shared
      generator. Twigs are not touched. */
  method GenerateBranches(cfg: Config, tree: TreeStructure, rng: Rng)
    modifies tree`crossSections, rng
    ensures GrowState(tree.crossSections, rng.pos) == Branches(cfg, rng.words, GrowState(old(tree.crossSections), old(rng.pos)))
  {
    if |tree.crossSections| > 0 {
      GenerateCoordinatedRecursive(cfg, tree, rng, 0, UnitY, 0, 0, 0);
    }
  }

  /** `generate_coordinated_recursive`, updating the arena and the generator in place. */
  method GenerateCoordinatedRecursive(cfg: Config, tree: TreeStructure, rng: Rng, idx: nat, dir: Vec3,
                                      depth: nat, sinceBranch: nat, atDepth: nat)
    requires idx < |tree.crossSections|
    modifies tree`crossSections, rng
    ensures GrowState(tree.crossSections, rng.pos) ==
      Grow(cfg, rng.words, GrowState(old(tree.crossSections), old(rng.pos)), idx, dir, depth, sinceBranch, atDepth)
    decreases cfg.general.maxDepth - depth, MaxSegmentsAtDepth(cfg.trunk, depth) - atDepth, 1
  {
    ghost var words := rng.words;
    ghost var s0 := GrowState(tree.crossSections, rng.pos);
    if Stops(cfg, tree.crossSections[idx], depth, atDepth) {
      GrowStops(cfg, words, s0, idx, dir, depth, sinceBranch, atDepth);
      return;
    }
    var center := tree.crossSections[idx].center;
    var rings := tree.crossSections[idx].rings;
    var st := DrawStep(cfg, rng, center, dir, depth);
    assert st == Advance(cfg, words, s0.pos, center, dir, depth);
    if ShouldBranch(cfg, sinceBranch, st, depth) {
      GrowBranches(cfg, words, s0, idx, dir, depth, sinceBranch, atDepth);
      ghost var s1 := GrowState(tree.crossSections, rng.pos);
      assert s1 == GrowState(s0.arena, st.pos);
      CreateCoordinatedBranches(cfg, tree, rng, idx, rings, st.nextCenter, st.bent, depth);
      assert GrowState(tree.crossSections, rng.pos) ==
        CreateBranches(cfg, words, s1, idx, rings, st.nextCenter, st.bent, depth);
    } else {
      GrowContinues(cfg, words, s0, idx, dir, depth, sinceBranch, atDepth);
      ContinueCoordinated(cfg, tree, rng, idx, st, depth, sinceBranch, atDepth);
    }
  }

  /** The continuation path of `generate_coordinated_recursive`: append the
      tapered cross-section under `idx` and keep growing from it. */
  method ContinueCoordinated(cfg: Config, tree: TreeStructure, rng: Rng, idx: nat, st: Step,
                             depth: nat, sinceBranch: nat, atDepth: nat)
    requires idx < |tree.crossSections| && atDepth < MaxSegmentsAtDepth(cfg.trunk, depth)
    modifies tree`crossSections, rng
    ensures GrowState(tree.crossSections, rng.pos) ==
      Grow(cfg, rng.words,
           GrowState(AppendChild(old(tree.crossSections), idx,
                                 ContinuationSection(cfg, old(tree.crossSections)[idx].rings, st, depth)),
                     old(rng.pos)),
           |old(tree.crossSections)|, st.bent, depth, sinceBranch + 1, atDepth + 1)
    decreases cfg.general.maxDepth - depth, MaxSegmentsAtDepth(cfg.trunk, depth) - atDepth, 0
  {
    ghost var words := rng.words;
    ghost var a1 := AppendChild(tree.crossSections, idx, ContinuationSection(cfg, tree.crossSections[idx].rings, st, depth));
    ghost var p := rng.pos;
    var nextIdx := AppendContinuation(cfg, tree, idx, st, depth);
    assert tree.crossSections == a1 && rng.pos == p;
    GenerateCoordinatedRecursive(cfg, tree, rng, nextIdx, st.bent, depth, sinceBranch + 1, atDepth + 1);
    assert GrowState(tree.crossSections, rng.pos) == Grow(cfg, words, GrowState(a1, p), nextIdx, st.bent, depth, sinceBranch + 1, atDepth + 1);
  }

  /** The continuation half of `generate_coordinated_recursive`: taper every ring
      and append the next cross-section under `idx`. */
  method AppendContinuation(cfg: Config, tree: TreeStructure, idx: nat, st: Step, depth: nat) returns (nextIdx: nat)
    requires idx < |tree.crossSections|
    modifies tree`crossSections
    ensures nextIdx == |old(tree.crossSections)|
    ensures tree.crossSections ==
      AppendChild(old(tree.crossSections), idx, ContinuationSection(cfg, old(tree.crossSections)[idx].rings, st, depth))
  {
    var rings := tree.crossSections[idx].rings;
    var taper := ContinuationTaper(cfg, |rings|, st.nextCenter.y);
    var childRings := ContinueRings(cfg, rings, taper, depth, st.nextCenter.y);
    var next := CrossSection(st.nextCenter, cfg.math.rotationArc(UnitY, st.bent), depth, childRings, []);
    nextIdx := tree.AddCrossSection(Some(idx), next);
  }

  /** The five draws of one growth step, in the engine's order. */
  method DrawStep(cfg: Config, rng: Rng, center: Vec3, dir: Vec3, depth: nat) returns (st: Step)
    modifies rng
    ensures st == Advance(cfg, rng.words, old(rng.pos), center, dir, depth) && rng.pos == st.pos
  {
    var bendAngle, axisX, axisZ, variation, threshold := DrawStepValues(cfg, rng, depth);
    st := StepFrom(cfg, center, dir, bendAngle, axisX, axisZ, variation, threshold, rng.pos);
  }

  /** The five draws of a step, in the engine's order. */
  method DrawStepValues(cfg: Config, rng: Rng, depth: nat)
    returns (bendAngle: real, axisX: real, axisZ: real, variation: real, threshold: nat)
    modifies rng
    ensures BendMin(cfg.branching, depth) <= BendMax(cfg.branching, depth)
    ensures bendAngle == RealIn(rng.words, old(rng.pos), BendMin(cfg.branching, depth), BendMax(cfg.branching, depth))
    ensures axisX == RealIn(rng.words, old(rng.pos) + 1, -1.0, 1.0)
    ensures axisZ == RealIn(rng.words, old(rng.pos) + 2, -1.0, 1.0)
    ensures variation == RealIn(rng.words, old(rng.pos) + 3, -1.0, 1.0)
    ensures threshold == IntIn(rng.words, old(rng.pos) + 4, FrequencyMin(cfg.branching), FrequencyMax(cfg.branching))
    ensures rng.pos == old(rng.pos) + 5
  {
    BendRangeOrdered(cfg.branching, depth);
    bendAngle := rng.GenRange(BendMin(cfg.branching, depth), BendMax(cfg.branching, depth));
    axisX := rng.GenRange(-1.0, 1.0);
    axisZ := rng.GenRange(-1.0, 1.0);
    variation := rng.GenRange(-1.0, 1.0);
    threshold := rng.GenRangeInt(FrequencyMin(cfg.branching), FrequencyMax(cfg.branching));
  }

  /** `create_coordinated_branches`, updating the arena and the generator in place. */
  method CreateCoordinatedBranches(cfg: Config, tree: TreeStructure, rng: Rng, parent: nat,
                                   rings: seq<ComponentRing>, center: Vec3, main: Vec3, depth: nat)
    requires parent < |tree.crossSections| && depth + 1 < cfg.general.maxDepth
    modifies tree`crossSections, rng
    ensures GrowState(tree.crossSections, rng.pos) ==
      CreateBranches(cfg, rng.words, GrowState(old(tree.crossSections), old(rng.pos)), parent, rings, center, main, depth)
    decreases cfg.general.maxDepth - depth, 0, 1
  {
    ghost var words := rng.words;
    ghost var s0 := GrowState(tree.crossSections, rng.pos);
    var branchDir, trunkIdx, branchIdx := AppendBranchPoint(cfg, tree, rng, parent, rings, center, main, depth);
    GrowBranchChildren(cfg, tree, rng, trunkIdx, branchIdx, main, branchDir, depth);
  }

  /** `GrowChildren` on the tree and the generator. */
  method GrowBranchChildren(cfg: Config, tree: TreeStructure, rng: Rng, trunkIdx: nat, branchIdx: nat,
                            main: Vec3, branchDir: Vec3, depth: nat)
    requires trunkIdx < branchIdx < |tree.crossSections| && depth + 1 < cfg.general.maxDepth
    modifies tree`crossSections, rng
    ensures GrowState(tree.crossSections, rng.pos) ==
      GrowChildren(cfg, rng.words, GrowState(old(tree.crossSections), old(rng.pos)), trunkIdx, branchIdx, main, branchDir, depth)
    decreases cfg.general.maxDepth - depth, 0, 0
  {
    ghost var words := rng.words;
    ghost var s0 := GrowState(tree.crossSections, rng.pos);
    GenerateCoordinatedRecursive(cfg, tree, rng, trunkIdx, main, depth + 1, 0, 0);
    ghost var r1 := GrowState(tree.crossSections, rng.pos);
    assert r1 == Grow(cfg, words, s0, trunkIdx, main, depth + 1, 0, 0);
    GenerateCoordinatedRecursive(cfg, tree, rng, branchIdx, branchDir, depth + 1, 0, 0);
    assert GrowState(tree.crossSections, rng.pos) == Grow(cfg, words, r1, branchIdx, branchDir, depth + 1, 0, 0);
  }


  /** The draws, ring split and appends that open a branch point. */
  method AppendBranchPoint(cfg: Config, tree: TreeStructure, rng: Rng, parent: nat,
                           rings: seq<ComponentRing>, center: Vec3, main: Vec3, depth: nat)
    returns (branchDir: Vec3, trunkIdx: nat, branchIdx: nat)
    requires parent < |tree.crossSections|
    modifies tree`crossSections, rng
    ensures GrowState(tree.crossSections, rng.pos) ==
      BranchStart(cfg, rng.words, GrowState(old(tree.crossSections), old(rng.pos)), parent, rings, center, main, depth)
    ensures branchDir == BranchDirection(cfg, rng.words, old(rng.pos), main).0
    ensures trunkIdx == |old(tree.crossSections)| && branchIdx == trunkIdx + 1
  {
    var m := cfg.math;
    branchDir := DrawBranchDirection(cfg, rng, main);
    var trunkRings, branchRings := SplitRingsLoop(rings, BranchTaper(cfg.branching));
    var len := cfg.trunk.segmentLength;
    var trunkCs := CrossSection(Add(center, Scale(main, len)), m.rotationArc(UnitY, main), depth + 1, trunkRings, []);
    var branchCs := CrossSection(Add(center, Scale(branchDir, len)), m.rotationArc(UnitY, branchDir), depth + 1, branchRings, []);
    assert (trunkCs, branchCs) == BranchChildren(cfg, rings, center, main, branchDir, depth);
    trunkIdx := tree.AddCrossSection(Some(parent), trunkCs);
    branchIdx := tree.AddCrossSection(Some(parent), branchCs);
  }

  /** The draws of a branch point, in the engine's order. */
  method DrawBranchDirection(cfg: Config, rng: Rng, main: Vec3) returns (branchDir: Vec3)
    modifies rng
    ensures (branchDir, rng.pos) == BranchDirection(cfg, rng.words, old(rng.pos), main)
  {
    var b := cfg.branching;
    var branchAngle := rng.GenRange(Min(b.angleMin, b.angleMax), Max(b.angleMax, b.angleMin));
    branchDir := PlanarDirection(cfg, main, branchAngle);
    if b.azimuthVariation > 0.0 {
      var azimuth := rng.GenRange(0.0, 2.0 * Pi);
      branchDir := AzimuthDirection(cfg, main, branchDir, azimuth);
    }
  }
}
