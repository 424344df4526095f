/** The trunk stage: it resets the arena to the single trunk base. */
module Trunk {
  import opened Geometry
  import opened Structure
  import opened Parameters
  import opened Random
  import opened Rings

  /** The trunk base: at the origin, identity orientation, depth 0, no children,
      with the trunk rings at height 0. */
  function TrunkBase(p: TrunkParams, m: Math): CrossSection
  {
    CrossSection(Zero3, Identity, 0, TrunkRings(p, 0.0, m), [])
  }

  /** The arena after the trunk stage: the base, and nothing else. */
  lemma TrunkArena(p: TrunkParams, m: Math)
    ensures var a := [TrunkBase(p, m)];
      && IsTree(a)
      && a[0].center == Zero3 && a[0].depth == 0 && a[0].children == []
      && |a[0].rings| == RingCount(p.buttressing)
      && a[0].rings[0].offset == Zero2 && a[0].rings[0].ringType == MainTrunk
      && (forall i :: 1 <= i < |a[0].rings| ==> a[0].rings[i].ringType == SideBranch)
  {
  }

  /** `TrunkSystem::generate`: clears the arena and pushes the base. The generator
      is passed but not drawn from, and the twig list is not touched. */
  method GenerateTrunk(p: TrunkParams, m: Math, tree: TreeStructure, rng: Rng)
    modifies tree`crossSections
    ensures tree.crossSections == [TrunkBase(p, m)]
  {
    tree.crossSections := [];
    var rings := GenerateTrunkRings(p, 0.0, m);
    var base := CrossSection(Zero3, Identity, 0, rings, []);
    var idx := tree.AddCrossSection(None, base);
  }
}
