/** The tree skeleton: component rings, cross-sections, twigs and the append-only
    arena of cross-sections (`TreeStructure`). Cross-sections refer to their
    children by index into the arena. */
module Structure {
  import opened Geometry

  datatype RootType = TapRoot | LateralRoot | FeederRoot
  datatype RingType = MainTrunk | SideBranch | Root(rootType: RootType)

  /** One circular lobe of a cross-section, placed at `offset` in its local plane. */
  datatype ComponentRing = ComponentRing(offset: Vec2, radius: real, ringType: RingType)

  /** A slice of the skeleton. The engine's cross-section has no back-link to its
      parent: the parent is the entry whose `children` hold this one's index. */
  datatype CrossSection = CrossSection(
    center: Vec3,
    orientation: Quat,
    depth: nat,
    rings: seq<ComponentRing>,
    children: seq<nat>)

  datatype RingId = RingId(crossSectionIndex: nat, ringIndex: nat)

  datatype TwigType = LeafCluster | SmallBranch | BranchTip
  datatype Twig = Twig(position: Vec3, orientation: Quat, scale: real, twigType: TwigType)

  datatype TwigGenerationParams = TwigGenerationParams(
    density: real,
    scaleMin: real,
    scaleMax: real,
    angleVariation: real,
    attachmentThreshold: real)

  /** Every child index names an entry of the arena. */
  ghost predicate LinksInRange(a: seq<CrossSection>)
  {
    forall i, k :: 0 <= i < |a| && 0 <= k < |a[i].children| ==> a[i].children[k] < |a|
  }

  /** Every child index names a later entry of the arena (parent before child). */
  ghost predicate ForwardLinks(a: seq<CrossSection>)
  {
    forall i, k :: 0 <= i < |a| && 0 <= k < |a[i].children| ==> i < a[i].children[k] < |a|
  }

  /** The first entry, at or after `from`, whose children contain `c`. */
  function ParentFrom(a: seq<CrossSection>, c: nat, from: nat): (r: Option<nat>)
    decreases |a| - from
    ensures r.Some? ==> from <= r.value < |a| && c in a[r.value].children
    ensures r.None? ==> forall j :: from <= j < |a| ==> c !in a[j].children
  {
    if from >= |a| then None
    else if c in a[from].children then Some(from)
    else ParentFrom(a, c, from + 1)
  }

  /** The parent of entry `c`: the first entry whose children contain `c`. */
  function ParentOf(a: seq<CrossSection>, c: nat): Option<nat>
  {
    ParentFrom(a, c, 0)
  }

  datatype Option<T> = None | Some(value: T)

  /** The arena after appending `cs` and recording its index among the children of
      `parent`: `cross_sections[parent].children_indices.push(len)` followed by
      `cross_sections.push(cs)`. */
  function AppendChild(a: seq<CrossSection>, parent: nat, cs: CrossSection): (r: seq<CrossSection>)
    requires parent < |a|
    ensures |r| == |a| + 1 && r[|a|] == cs
    ensures r[parent] == a[parent].(children := a[parent].children + [|a|])
    ensures forall i :: 0 <= i < |a| && i != parent ==> r[i] == a[i]
  {
    a[parent := a[parent].(children := a[parent].children + [|a|])] + [cs]
  }

  /** Appending under a parent keeps every link in range and makes that parent
      the one `ParentOf` finds for the new entry. */
  lemma AppendChildParent(a: seq<CrossSection>, parent: nat, cs: CrossSection)
    requires parent < |a| && LinksInRange(a)
    requires forall k :: 0 <= k < |cs.children| ==> cs.children[k] <= |a|
    ensures LinksInRange(AppendChild(a, parent, cs))
    ensures ParentOf(AppendChild(a, parent, cs), |a|) == Some(parent)
  {
    var r := AppendChild(a, parent, cs);
    forall j | 0 <= j < parent ensures |a| !in r[j].children {
      assert r[j] == a[j];
    }
    assert |a| in r[parent].children;
    ParentFromFirst(r, |a|, 0, parent);
  }

  /** `ParentFrom` returns the first match. */
  lemma {:induction false} ParentFromFirst(a: seq<CrossSection>, c: nat, from: nat, p: nat)
    requires from <= p < |a| && c in a[p].children
    requires forall j :: from <= j < p ==> c !in a[j].children
    ensures ParentFrom(a, c, from) == Some(p)
    decreases p - from
  {
    if from < p {
      ParentFromFirst(a, c, from + 1, p);
    }
  }

  /** No index appears twice among all the children lists. */
  ghost predicate UniqueChildren(a: seq<CrossSection>)
  {
    forall i1, k1, i2, k2 ::
      (0 <= i1 < |a| && 0 <= k1 < |a[i1].children| && 0 <= i2 < |a| && 0 <= k2 < |a[i2].children| &&
       a[i1].children[k1] == a[i2].children[k2]) ==> i1 == i2 && k1 == k2
  }

  /** Entry `j` is the child of an entry before it. */
  ghost predicate HasEarlierParent(a: seq<CrossSection>, j: nat)
  {
    exists i :: 0 <= i < j && i < |a| && j in a[i].children
  }

  /** Every entry but the first is the child of an earlier entry. */
  ghost predicate Reachable(a: seq<CrossSection>)
  {
    forall j :: 1 <= j < |a| ==> HasEarlierParent(a, j)
  }

  /** The arena is a tree rooted at entry 0, stored parents-first. */
  ghost predicate IsTree(a: seq<CrossSection>)
  {
    ForwardLinks(a) && UniqueChildren(a) && Reachable(a)
  }

  /** Appending a leaf under an existing entry keeps the arena a tree. */
  lemma AppendChildKeepsTree(a: seq<CrossSection>, parent: nat, cs: CrossSection)
    requires parent < |a| && IsTree(a) && cs.children == []
    ensures IsTree(AppendChild(a, parent, cs))
  {
    AppendChildKeepsUnique(a, parent, cs);
    var r := AppendChild(a, parent, cs);
    assert |a| in r[parent].children;
    forall j | 1 <= j < |r| ensures HasEarlierParent(r, j) {
      if j < |a| {
        assert HasEarlierParent(a, j);
        var i :| 0 <= i < j && j in a[i].children;
        assert r[i].children[..|a[i].children|] == a[i].children;
        assert j in r[i].children;
      }
    }
  }

  lemma AppendChildKeepsUnique(a: seq<CrossSection>, parent: nat, cs: CrossSection)
    requires parent < |a| && LinksInRange(a) && UniqueChildren(a) && cs.children == []
    ensures UniqueChildren(AppendChild(a, parent, cs))
  {
    var r := AppendChild(a, parent, cs);
    var n := |a[parent].children|;
    forall i1, k1, i2, k2 |
      0 <= i1 < |r| && 0 <= k1 < |r[i1].children| && 0 <= i2 < |r| && 0 <= k2 < |r[i2].children| &&
      r[i1].children[k1] == r[i2].children[k2]
      ensures i1 == i2 && k1 == k2
    {
      AppendChildEntry(a, parent, cs, i1, k1);
      AppendChildEntry(a, parent, cs, i2, k2);
    }
  }

  /** A child index in the arena after `AppendChild` is either the new one or the
      old index at the same place, which is below the old length. */
  lemma AppendChildEntry(a: seq<CrossSection>, parent: nat, cs: CrossSection, i: nat, k: nat)
    requires parent < |a| && LinksInRange(a) && cs.children == []
    requires i < |AppendChild(a, parent, cs)| && k < |AppendChild(a, parent, cs)[i].children|
    ensures var r := AppendChild(a, parent, cs);
      (i == parent && k == |a[parent].children| && r[i].children[k] == |a|) ||
      (i < |a| && k < |a[i].children| && r[i].children[k] == a[i].children[k] < |a| &&
       !(i == parent && k == |a[parent].children|))
  {
  }

  /** The cross-section arena and the twig list of one generated tree. */
  class TreeStructure {
    var crossSections: seq<CrossSection>
    var twigs: seq<Twig>

    constructor ()
      ensures crossSections == [] && twigs == []
    {
      crossSections := [];
      twigs := [];
    }

    /** Appends `cs` and, when a parent is given, links it as that parent's child;
        returns the new entry's index (the old length). */
    method AddCrossSection(parentIdx: Option<nat>, cs: CrossSection) returns (newIdx: nat)
      requires parentIdx.Some? ==> parentIdx.value < |crossSections|
      modifies this`crossSections
      ensures newIdx == |old(crossSections)|
      ensures crossSections == match parentIdx
        case None => old(crossSections) + [cs]
        case Some(p) => AppendChild(old(crossSections), p, cs)
    {
      newIdx := |crossSections|;
      match parentIdx {
        case None =>
          crossSections := crossSections + [cs];
        case Some(p) =>
          crossSections := crossSections[p := crossSections[p].(children := crossSections[p].children + [newIdx])];
          crossSections := crossSections + [cs];
      }
    }

    /** Appends `ring` to the ring list of entry `csIdx` and returns its identifier. */
    method AddComponentRing(csIdx: nat, ring: ComponentRing) returns (id: RingId)
      requires csIdx < |crossSections|
      modifies this`crossSections
      ensures id == RingId(csIdx, |old(crossSections)[csIdx].rings|)
      ensures |crossSections| == |old(crossSections)|
      ensures crossSections[csIdx] == old(crossSections)[csIdx].(rings := old(crossSections)[csIdx].rings + [ring])
      ensures forall i :: 0 <= i < |crossSections| && i != csIdx ==> crossSections[i] == old(crossSections)[i]
    {
      id := RingId(csIdx, |crossSections[csIdx].rings|);
      crossSections := crossSections[csIdx := crossSections[csIdx].(rings := crossSections[csIdx].rings + [ring])];
    }
  }
}
