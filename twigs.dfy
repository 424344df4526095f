/** The twig stage (`TwigSystem::generate`): it scans every ring of every
    cross-section, in arena order and ring order, and gates each small non-root
    ring with one draw; rings that pass get twigs from `TwigPlacement`. */
module Twigs {
  import opened Geometry
  import opened Structure
  import opened Parameters
  import opened Random
  import opened TwigPlacement

  /** The placement parameters the stage derives from its inputs. */
  function StageParams(p: TwigParams): TwigGenerationParams
  {
    TwigGenerationParams(p.density, p.scale * 0.5, p.scale * 1.5, p.angleVariation, 0.05)
  }

  /** The twig list and the generator position while the stage runs. */
  datatype TwigState = TwigState(twigs: seq<Twig>, pos: nat)

  /** What the gates need: a gate can only pass with a positive density, and then
      the scale range must not be empty. */
  predicate Placeable(tp: TwigGenerationParams)
  {
    tp.density <= 0.0 || tp.scaleMin <= tp.scaleMax
  }

  /** A ring that is gated, that is, consumes a draw: not a root ring, and no wider
      than the threshold or than twice the threshold. */
  predicate Gated(ring: ComponentRing, tp: TwigGenerationParams)
  {
    !ring.ringType.Root? && (ring.radius <= tp.attachmentThreshold || ring.radius <= tp.attachmentThreshold * 2.0)
  }

  /** The branch direction used for twigs on cross-section `i`: from the first
      cross-section's centre towards this one's, or the Y axis for the first. */
  function BranchDirection(a: seq<CrossSection>, i: nat, m: Math): Vec3
    requires i < |a|
  {
    if i > 0 then m.normalize(Sub(a[i].center, a[0].center)) else UnitY
  }

  /** After a gate draw: the placed twigs when the gate passed, nothing otherwise. */
  function Attach(place: bool, words: nat -> Word, pos: nat, tp: TwigGenerationParams, center: Vec3,
                  direction: Vec3, radius: real, twigs: seq<Twig>, m: Math): TwigState
    requires place ==> 0.0 < tp.density && tp.scaleMin <= tp.scaleMax
  {
    if place then
      var placed := PlacedTwigs(words, pos, center, direction, radius, tp, m);
      TwigState(twigs + placed, pos + 1 + 3 * |placed|)
    else TwigState(twigs, pos)
  }

  /** One ring: root rings and rings wider than twice the threshold are passed over
      without a draw; a ring up to the threshold passes with probability
      `min(0.3 d, 1)`, a ring up to twice the threshold with probability `0.1 d`. */
  function RingStep(words: nat -> Word, tp: TwigGenerationParams, center: Vec3, direction: Vec3,
                    ring: ComponentRing, st: TwigState, m: Math): TwigState
    requires Placeable(tp)
  {
    if ring.ringType.Root? then st
    else if ring.radius <= tp.attachmentThreshold then
      var u := RealIn(words, st.pos, 0.0, 1.0);
      Attach(u < Min(tp.density * 0.3, 1.0), words, st.pos + 1, tp, center, direction, ring.radius, st.twigs, m)
    else if ring.radius <= tp.attachmentThreshold * 2.0 then
      var u := RealIn(words, st.pos, 0.0, 1.0);
      Attach(u < tp.density * 0.1, words, st.pos + 1, tp, center, direction, ring.radius, st.twigs, m)
    else st
  }

  /** Rings `j..` of cross-section `i`, in order. */
  function RingsFrom(words: nat -> Word, tp: TwigGenerationParams, a: seq<CrossSection>, i: nat, j: nat,
                     m: Math, st: TwigState): TwigState
    requires i < |a| && Placeable(tp)
    decreases |a[i].rings| - j
  {
    if j >= |a[i].rings| then st
    else RingsFrom(words, tp, a, i, j + 1, m,
                   RingStep(words, tp, a[i].center, BranchDirection(a, i, m), a[i].rings[j], st, m))
  }

  /** Cross-sections `i..`, in arena order. */
  function SectionsFrom(words: nat -> Word, tp: TwigGenerationParams, a: seq<CrossSection>, i: nat,
                        m: Math, st: TwigState): TwigState
    requires Placeable(tp)
    decreases |a| - i
  {
    if i >= |a| then st
    else SectionsFrom(words, tp, a, i + 1, m, RingsFrom(words, tp, a, i, 0, m, st))
  }

  /** The stage: nothing at all when disabled (the old twigs stay); otherwise the
      twig list is cleared and rebuilt by the scan. */
  function TwigStage(p: TwigParams, a: seq<CrossSection>, twigs: seq<Twig>, pos: nat,
                     words: nat -> Word, m: Math): TwigState
    requires DrawableRanges(p)
  {
    if !p.enable then TwigState(twigs, pos)
    else SectionsFrom(words, StageParams(p), a, 0, m, TwigState([], pos))
  }

  /** The number of gated rings among rings `j..` of one cross-section. */
  function GatedFrom(rings: seq<ComponentRing>, j: nat, tp: TwigGenerationParams): nat
    decreases |rings| - j
  {
    if j >= |rings| then 0 else (if Gated(rings[j], tp) then 1 else 0) + GatedFrom(rings, j + 1, tp)
  }

  /** The number of gated rings in cross-sections `i..`. */
  function GatedSections(a: seq<CrossSection>, i: nat, tp: TwigGenerationParams): nat
    decreases |a| - i
  {
    if i >= |a| then 0 else GatedFrom(a[i].rings, 0, tp) + GatedSections(a, i + 1, tp)
  }

  /** `r` extends `st` as `g` gated rings may: the old twigs are kept as a prefix,
      every new twig is scaled within `[scale_min, scale_max]`, at most 12 twigs
      come per gated ring, and the generator has moved by one gate draw per gated
      ring, plus one count draw for each gate that passed (at most one per gated
      ring), plus three draws per new twig. */
  ghost predicate Extends(st: TwigState, r: TwigState, g: nat, tp: TwigGenerationParams)
  {
    && |st.twigs| <= |r.twigs| && r.twigs[..|st.twigs|] == st.twigs
    && (forall k :: |st.twigs| <= k < |r.twigs| ==> tp.scaleMin <= r.twigs[k].scale <= tp.scaleMax)
    && |r.twigs| - |st.twigs| <= MaxTwigs * g
    && st.pos + g + 3 * (|r.twigs| - |st.twigs|) <= r.pos
    && r.pos <= st.pos + 2 * g + 3 * (|r.twigs| - |st.twigs|)
  }

  /** Extensions compose. */
  lemma ExtendsTrans(s1: TwigState, s2: TwigState, s3: TwigState, g1: nat, g2: nat, tp: TwigGenerationParams)
    requires Extends(s1, s2, g1, tp) && Extends(s2, s3, g2, tp)
    ensures Extends(s1, s3, g1 + g2, tp)
  {
    assert s3.twigs[..|s1.twigs|] == s3.twigs[..|s2.twigs|][..|s1.twigs|];
    forall k | |s1.twigs| <= k < |s3.twigs|
      ensures tp.scaleMin <= s3.twigs[k].scale <= tp.scaleMax
    {
      if k < |s2.twigs| {
        assert s3.twigs[k] == s3.twigs[..|s2.twigs|][k];
      }
    }
  }

  /** One ring: a skipped ring (root, or wider than twice the threshold) leaves the
      twigs and the generator as they were; a gated ring consumes exactly one gate
      draw and, when the gate passes, appends one placement. */
  lemma RingStepExtends(words: nat -> Word, tp: TwigGenerationParams, center: Vec3, direction: Vec3,
                        ring: ComponentRing, st: TwigState, m: Math)
    requires Placeable(tp)
    ensures !Gated(ring, tp) ==> RingStep(words, tp, center, direction, ring, st, m) == st
    ensures Extends(st, RingStep(words, tp, center, direction, ring, st, m), if Gated(ring, tp) then 1 else 0, tp)
  {
    if !Gated(ring, tp) {
      assert st.twigs[..|st.twigs|] == st.twigs;
    } else {
      var u := RealIn(words, st.pos, 0.0, 1.0);
      if ring.radius <= tp.attachmentThreshold {
        AttachExtends(u < Min(tp.density * 0.3, 1.0), words, tp, center, direction, ring.radius, st, m);
      } else {
        AttachExtends(u < tp.density * 0.1, words, tp, center, direction, ring.radius, st, m);
      }
    }
  }

  /** A gate draw at `st.pos`: passed, it appends one placement read from the
      next position; failed, it only consumes the draw. */
  lemma AttachExtends(place: bool, words: nat -> Word, tp: TwigGenerationParams, center: Vec3, direction: Vec3,
                      radius: real, st: TwigState, m: Math)
    requires place ==> 0.0 < tp.density && tp.scaleMin <= tp.scaleMax
    ensures Extends(st, Attach(place, words, st.pos + 1, tp, center, direction, radius, st.twigs, m), 1, tp)
  {
    var r := Attach(place, words, st.pos + 1, tp, center, direction, radius, st.twigs, m);
    if place {
      var placed := PlacedTwigs(words, st.pos + 1, center, direction, radius, tp, m);
      PlacedTwigsFacts(words, st.pos + 1, center, direction, radius, tp, m);
      assert r.twigs[..|st.twigs|] == st.twigs;
      forall k | |st.twigs| <= k < |r.twigs|
        ensures tp.scaleMin <= r.twigs[k].scale <= tp.scaleMax
      {
        assert r.twigs[k] == placed[k - |st.twigs|];
      }
    } else {
      assert st.twigs[..|st.twigs|] == st.twigs;
    }
  }

  /** Rings `j..` of one cross-section extend the state by their gated count. */
  lemma {:induction false} RingsFromExtends(words: nat -> Word, tp: TwigGenerationParams, a: seq<CrossSection>,
                                            i: nat, j: nat, m: Math, st: TwigState)
    requires i < |a| && Placeable(tp)
    ensures Extends(st, RingsFrom(words, tp, a, i, j, m, st), GatedFrom(a[i].rings, j, tp), tp)
    decreases |a[i].rings| - j
  {
    if j >= |a[i].rings| {
      assert st.twigs[..|st.twigs|] == st.twigs;
    } else {
      var s2 := RingStep(words, tp, a[i].center, BranchDirection(a, i, m), a[i].rings[j], st, m);
      RingStepExtends(words, tp, a[i].center, BranchDirection(a, i, m), a[i].rings[j], st, m);
      RingsFromExtends(words, tp, a, i, j + 1, m, s2);
      ExtendsTrans(st, s2, RingsFrom(words, tp, a, i, j + 1, m, s2),
                   if Gated(a[i].rings[j], tp) then 1 else 0, GatedFrom(a[i].rings, j + 1, tp), tp);
    }
  }

  /** Cross-sections `i..` extend the state by their gated count. */
  lemma {:induction false} SectionsFromExtends(words: nat -> Word, tp: TwigGenerationParams, a: seq<CrossSection>,
                                               i: nat, m: Math, st: TwigState)
    requires Placeable(tp)
    ensures Extends(st, SectionsFrom(words, tp, a, i, m, st), GatedSections(a, i, tp), tp)
    decreases |a| - i
  {
    if i >= |a| {
      assert st.twigs[..|st.twigs|] == st.twigs;
    } else {
      var s2 := RingsFrom(words, tp, a, i, 0, m, st);
      RingsFromExtends(words, tp, a, i, 0, m, st);
      SectionsFromExtends(words, tp, a, i + 1, m, s2);
      ExtendsTrans(st, s2, SectionsFrom(words, tp, a, i + 1, m, s2),
                   GatedFrom(a[i].rings, 0, tp), GatedSections(a, i + 1, tp), tp);
    }
  }

  /** The stage as a whole. Disabled, it changes neither the twigs nor the
      generator. Enabled, the twigs are rebuilt from empty: every twig is scaled
      within `[0.5 s, 1.5 s]`, there are at most 12 per gated ring, and the
      generator has advanced by one draw per gated ring, one per passed gate and
      three per twig; with no gated ring there are no twigs and no draws. */
  lemma TwigStageFacts(p: TwigParams, a: seq<CrossSection>, twigs: seq<Twig>, pos: nat, words: nat -> Word, m: Math)
    requires DrawableRanges(p)
    ensures !p.enable ==> TwigStage(p, a, twigs, pos, words, m) == TwigState(twigs, pos)
    ensures p.enable ==>
      var tp := StageParams(p);
      var g := GatedSections(a, 0, tp);
      && (forall k :: 0 <= k < |TwigStage(p, a, twigs, pos, words, m).twigs| ==>
            0.5 * p.scale <= TwigStage(p, a, twigs, pos, words, m).twigs[k].scale <= 1.5 * p.scale)
      && |TwigStage(p, a, twigs, pos, words, m).twigs| <= MaxTwigs * g
      && pos + g + 3 * |TwigStage(p, a, twigs, pos, words, m).twigs| <= TwigStage(p, a, twigs, pos, words, m).pos
      && TwigStage(p, a, twigs, pos, words, m).pos <= pos + 2 * g + 3 * |TwigStage(p, a, twigs, pos, words, m).twigs|
      && (g == 0 ==> TwigStage(p, a, twigs, pos, words, m) == TwigState([], pos))
  {
    if p.enable {
      SectionsFromExtends(words, StageParams(p), a, 0, m, TwigState([], pos));
    }
  }

  /** `TwigSystem::generate` on the tree: only the twig list and the generator
      change; the cross-sections are read. */
  method GenerateTwigs(p: TwigParams, tree: TreeStructure, m: Math, rng: Rng)
    requires DrawableRanges(p)
    modifies tree`twigs, rng
    ensures TwigState(tree.twigs, rng.pos)
         == TwigStage(p, tree.crossSections, old(tree.twigs), old(rng.pos), rng.words, m)
  {
    if !p.enable {
      return;
    }
    ghost var words := rng.words;
    ghost var a := tree.crossSections;
    ghost var final := TwigStage(p, a, tree.twigs, rng.pos, words, m);
    tree.twigs := [];
    var tp := StageParams(p);
    var i := 0;
    while i < |tree.crossSections|
      invariant i <= |a| && tree.crossSections == a
      invariant SectionsFrom(words, tp, a, i, m, TwigState(tree.twigs, rng.pos)) == final
    {
      var cs := tree.crossSections[i];
      var direction := if i > 0 then m.normalize(Sub(cs.center, tree.crossSections[0].center)) else UnitY;
      ghost var start := TwigState(tree.twigs, rng.pos);
      var j := 0;
      while j < |cs.rings|
        invariant j <= |cs.rings| && tree.crossSections == a
        invariant RingsFrom(words, tp, a, i, j, m, TwigState(tree.twigs, rng.pos)) == RingsFrom(words, tp, a, i, 0, m, start)
      {
        GateRing(tree, tp, cs.center, direction, cs.rings[j], m, rng);
        j := j + 1;
      }
      i := i + 1;
    }
  }

  /** The gate for one ring: `should_have_twigs` draws only for a ring up to the
      threshold, `is_medium_branch_with_random_twigs` only for one between the
      threshold and twice it; a passed gate places twigs at the cross-section's
      centre. */
  method GateRing(tree: TreeStructure, tp: TwigGenerationParams, center: Vec3, direction: Vec3,
                  ring: ComponentRing, m: Math, rng: Rng)
    requires Placeable(tp)
    modifies tree`twigs, rng
    ensures TwigState(tree.twigs, rng.pos)
         == RingStep(rng.words, tp, center, direction, ring, TwigState(old(tree.twigs), old(rng.pos)), m)
  {
    if ring.ringType.Root? {
      return;
    }
    var densityChance := Min(tp.density * 0.3, 1.0);
    var shouldHaveTwigs := false;
    if ring.radius <= tp.attachmentThreshold {
      var u := rng.GenRange(0.0, 1.0);
      shouldHaveTwigs := u < densityChance;
    }
    var mediumWithTwigs := false;
    if ring.radius > tp.attachmentThreshold && ring.radius <= tp.attachmentThreshold * 2.0 {
      var u := rng.GenRange(0.0, 1.0);
      mediumWithTwigs := u < tp.density * 0.1;
    }
    if shouldHaveTwigs || mediumWithTwigs {
      GenerateTwigsAtPosition(tree, center, direction, ring.radius, tp, m, rng);
    }
  }
}
