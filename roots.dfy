/** The root stage: when enabled, three straight segments continue the trunk base
    downward, each the child of the one before it. */
module Roots {
  import opened Geometry
  import opened Structure
  import opened Parameters

  /** The number of root segments the stage appends. */
  const RootSegments: nat := 3

  /** The rings of root segment `k`: the base rings' offsets, in order, radius
      scaled by `1 - 0.1 * k`, and all of type MainTrunk. */
  function RootRings(base: seq<ComponentRing>, k: nat): (rings: seq<ComponentRing>)
    ensures |rings| == |base|
    ensures forall i :: 0 <= i < |base| ==>
      rings[i] == ComponentRing(base[i].offset, base[i].radius * (1.0 - k as real * 0.1), MainTrunk)
  {
    seq(|base|, i requires 0 <= i < |base| =>
      ComponentRing(base[i].offset, base[i].radius * (1.0 - k as real * 0.1), MainTrunk))
  }

  /** Root segment `k`: `(k + 1) * segment_length` below the base centre, depth 0,
      identity orientation, no children of its own yet. */
  function RootSection(base: CrossSection, segmentLength: real, k: nat): CrossSection
  {
    CrossSection(Sub(base.center, Vec3(0.0, (k + 1) as real * segmentLength, 0.0)), Identity, 0,
                 RootRings(base.rings, k), [])
  }

  /** The parent of root segment `k` in an arena that had `n` entries: the trunk
      base for the first segment, the segment appended just before otherwise. */
  function RootParent(n: nat, k: nat): nat
  {
    if k == 0 then 0 else n + k - 1
  }

  /** The arena after the first `k` root segments have been appended to `a`. */
  function RootsUpTo(a: seq<CrossSection>, base: CrossSection, segmentLength: real, k: nat): (r: seq<CrossSection>)
    requires 0 < |a|
    ensures |r| == |a| + k
  {
    if k == 0 then a
    else AppendChild(RootsUpTo(a, base, segmentLength, k - 1), RootParent(|a|, k - 1), RootSection(base, segmentLength, k - 1))
  }

  /** `RootSystem::generate` on the arena: nothing when disabled, otherwise the
      three segments built from entry 0 as it was on entry. */
  function RootsStage(p: RootParams, a: seq<CrossSection>): seq<CrossSection>
    requires 0 < |a|
  {
    if !p.enable then a else RootsUpTo(a, a[0], p.segmentLength, RootSegments)
  }

  /** The appending loop on the tree's arena. The base centre and rings are read
      once, before the loop. */
  method GenerateRoots(p: RootParams, tree: TreeStructure)
    requires 0 < |tree.crossSections|
    modifies tree`crossSections
    ensures tree.crossSections == RootsStage(p, old(tree.crossSections))
  {
    if !p.enable {
      return;
    }
    ghost var a := tree.crossSections;
    var base := tree.crossSections[0];
    for segment := 0 to RootSegments
      invariant tree.crossSections == RootsUpTo(a, base, p.segmentLength, segment)
    {
      var rings := RootRings(base.rings, segment);
      var cs := CrossSection(Sub(base.center, Vec3(0.0, (segment + 1) as real * p.segmentLength, 0.0)),
                             Identity, 0, rings, []);
      var parent := if segment == 0 then 0 else |tree.crossSections| - 1;
      assert cs == RootSection(base, p.segmentLength, segment);
      assert parent == RootParent(|a|, segment);
      var idx := tree.AddCrossSection(Some(parent), cs);
    }
  }

  /** What the appended entries are: segment `k` sits at index `|a| + k`, its rings
      are `RootRings(base, k)`, its centre is `(k + 1) * segment_length` below the
      base, and its only child is segment `k + 1` (the last has none). */
  lemma {:induction false} RootsUpToShape(a: seq<CrossSection>, base: CrossSection, segmentLength: real, k: nat)
    requires 0 < |a|
    ensures var r := RootsUpTo(a, base, segmentLength, k);
      && (forall i :: 0 < i < |a| ==> r[i] == a[i])
      && r[0] == a[0].(children := r[0].children)
      && r[0].children == (if k == 0 then a[0].children else a[0].children + [|a|])
      && (forall j :: 0 <= j < k ==>
            r[|a| + j] == RootSection(base, segmentLength, j).(children := if j + 1 < k then [|a| + j + 1] else []))
  {
    if k > 0 {
      RootsUpToShape(a, base, segmentLength, k - 1);
      var prev := RootsUpTo(a, base, segmentLength, k - 1);
      var r := RootsUpTo(a, base, segmentLength, k);
      forall j | 0 <= j < k
        ensures r[|a| + j] == RootSection(base, segmentLength, j).(children := if j + 1 < k then [|a| + j + 1] else [])
      {
        if j == k - 1 {
          assert r[|a| + j] == RootSection(base, segmentLength, k - 1);
        } else if j + 1 == k - 1 {
          assert r[|a| + j] == prev[|a| + j].(children := prev[|a| + j].children + [|a| + k - 1]);
        } else {
          assert r[|a| + j] == prev[|a| + j];
        }
      }
    }
  }

  /** Appending the root chain keeps the arena a tree. */
  lemma {:induction false} RootsUpToKeepsTree(a: seq<CrossSection>, base: CrossSection, segmentLength: real, k: nat)
    requires 0 < |a| && IsTree(a)
    ensures IsTree(RootsUpTo(a, base, segmentLength, k))
  {
    if k > 0 {
      RootsUpToKeepsTree(a, base, segmentLength, k - 1);
      AppendChildKeepsTree(RootsUpTo(a, base, segmentLength, k - 1), RootParent(|a|, k - 1),
                           RootSection(base, segmentLength, k - 1));
    }
  }

  /** The stage as a whole: disabled, it changes nothing; enabled, it appends
      exactly three entries chained below the trunk base, each a `RootSection` of
      the base as it was on entry, keeps the arena a tree, and changes no earlier
      entry except that entry 0 gains the first segment. */
  lemma RootsStageFacts(p: RootParams, a: seq<CrossSection>)
    requires 0 < |a| && IsTree(a)
    ensures !p.enable ==> RootsStage(p, a) == a
    ensures p.enable ==> var r := RootsStage(p, a);
      && |r| == |a| + 3
      && IsTree(r)
      && (forall i :: 0 < i < |a| ==> r[i] == a[i])
      && r[0] == a[0].(children := r[0].children)
      && r[0].children == a[0].children + [|a|]
      && r[|a|].children == [|a| + 1] && r[|a| + 1].children == [|a| + 2] && r[|a| + 2].children == []
      && (forall k :: 0 <= k < 3 ==>
            r[|a| + k] == RootSection(a[0], p.segmentLength, k).(children := r[|a| + k].children))
  {
    if p.enable {
      var r := RootsUpTo(a, a[0], p.segmentLength, 3);
      assert RootsStage(p, a) == r;
      RootsUpToShape(a, a[0], p.segmentLength, 3);
      RootsUpToKeepsTree(a, a[0], p.segmentLength, 3);
      assert r[|a|] == RootSection(a[0], p.segmentLength, 0).(children := [|a| + 1]);
      assert r[|a| + 1] == RootSection(a[0], p.segmentLength, 1).(children := [|a| + 2]);
      assert r[|a| + 2] == RootSection(a[0], p.segmentLength, 2).(children := []);
    }
  }
}
