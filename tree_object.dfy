/** The host object of `packages/tree-engine`: a parameter set and the tree generated
    from it. Every setter stores a normalised or clamped value and regenerates, so the
    tree is always the generator's output for the current parameters. */
module TreeHost {
  import opened Geometry
  import opened Structure
  import opened Parameters
  import opened Random
  import opened Generator
  import opened Mesh
  import opened Trunk

  // ---------------------------------------------------------------------------
  // Normalising the setter inputs

  function NatMax(a: nat, b: nat): nat { if a >= b then a else b }

  /** `x.max(lo).min(hi)` on an unsigned value. */
  function ClampNat(x: nat, lo: nat, hi: nat): nat
  {
    NatMin(NatMax(x, lo), hi)
  }

  /** A clamp lands in `[lo, hi]` and leaves a value already there unchanged. */
  lemma ClampRange(x: real, lo: real, hi: real)
    requires lo <= hi
    ensures lo <= Clamp(x, lo, hi) <= hi
    ensures lo <= x <= hi <==> Clamp(x, lo, hi) == x
  {
  }

  /** The same for the unsigned clamp. */
  lemma ClampNatRange(x: nat, lo: nat, hi: nat)
    requires lo <= hi
    ensures lo <= ClampNat(x, lo, hi) <= hi
    ensures lo <= x <= hi <==> ClampNat(x, lo, hi) == x
  {
  }

  /** `set_branch_angle_range` and `set_bend_angle_range`: `(min.min(max), max.max(min))`. */
  function OrderedPair(lo: real, hi: real): (r: (real, real))
    ensures r.0 <= r.1
    ensures multiset{r.0, r.1} == multiset{lo, hi}
    ensures lo <= hi <==> r == (lo, hi)
  {
    (Min(lo, hi), Max(hi, lo))
  }

  /** `set_branch_frequency_range`: the minimum raised to 1 and capped by the
      maximum raised to 1; the maximum raised to 1 and to that minimum. */
  function FrequencyRange(lo: nat, hi: nat): (r: (nat, nat))
  {
    var validatedMin := NatMin(NatMax(lo, 1), NatMax(hi, 1));
    var validatedMax := NatMax(NatMax(hi, 1), validatedMin);
    (validatedMin, validatedMax)
  }

  /** The frequency range is always `1 <= min <= max`; a range already valid is kept;
      the maximum is the requested one raised to 1, and a minimum above it
      collapses onto it. */
  lemma FrequencyRangeValid(lo: nat, hi: nat)
    ensures var r := FrequencyRange(lo, hi);
      && 1 <= r.0 <= r.1
      && r.1 == NatMax(hi, 1)
      && (1 <= lo <= hi <==> r == (lo, hi))
      && (lo > NatMax(hi, 1) ==> r.0 == r.1)
  {
  }

  /** The ranges every setter keeps its field in, and what the pass needs. */
  ghost predicate Normalised(p: TreeParameters)
  {
    && p.general.maxDepth >= 1
    && p.trunk.segmentLength >= 0.01
    && 0.0 <= p.trunk.ringSpread <= 2.0
    && 0.0 <= p.trunk.segmentLengthVariation <= 1.0
    && 0.1 <= p.trunk.size <= 10.0
    && p.branching.angleMin <= p.branching.angleMax
    && p.branching.bendAngleMin <= p.branching.bendAngleMax
    && 1 <= p.branching.frequencyMin <= p.branching.frequencyMax
    && 0.1 <= p.branching.radiusTaper <= 1.0
    && 0.0 <= p.branching.azimuthVariation <= 1.0
    && 2.0 <= p.branching.maxReach <= 50.0
    && 0.5 <= p.roots.depth <= 3.0
    && 0.5 <= p.roots.spread <= 2.0
    && 2 <= p.roots.density <= 8
    && 0.1 <= p.roots.segmentLength <= 0.8
    && 0.1 <= p.twigs.density <= 2.0
    && 0.1 <= p.twigs.scale <= 3.0
    && 0.0 <= p.twigs.angleVariation <= 1.0
  }

  /** The constructor's parameters: `max_depth` 8, split height at 60% of the trunk
      height, and the fixed defaults of every other group. */
  function Defaults(seed: nat, trunkHeight: real, buttressing: real): TreeParameters
  {
    TreeParameters(
      GeneralParams(seed, 8),
      TrunkParams(trunkHeight, buttressing, trunkHeight * 0.6, 0.3, 1.0, 0.3, 0.2),
      BranchingParams(15.0, 45.0, 5.0, 25.0, 2, 5, 0.8, 0.8, 25.0),
      RootParams(true, 1.5, 1.2, 4, 0.4),
      TwigParams(true, 1.0, 0.8, 0.6))
  }

  /** The defaults are normalised whatever the height and buttressing, and the
      twig scale range they give can be drawn from. */
  lemma DefaultsNormalised(seed: nat, trunkHeight: real, buttressing: real)
    ensures Normalised(Defaults(seed, trunkHeight, buttressing))
    ensures DrawableRanges(Defaults(seed, trunkHeight, buttressing).twigs)
    ensures Defaults(seed, trunkHeight, buttressing).trunk.splitHeight == 0.6 * trunkHeight
  {
  }

  /** Normalised parameters never ask the pass for an empty draw range. */
  lemma NormalisedDrawable(p: TreeParameters)
    requires Normalised(p)
    ensures DrawableRanges(p.twigs)
  {
  }

  // ---------------------------------------------------------------------------
  // The flat mesh handed to the host

  /** `TreeMesh`: coordinates flattened to floats, indices and depths as they are. */
  datatype TreeMesh = TreeMesh(vertices: seq<real>, normals: seq<real>, uvs: seq<real>,
                               indices: seq<nat>, depths: seq<nat>)

  /** Coordinate `k` (x, y, z) of `v`. */
  function Coord3(v: Vec3, k: nat): real
    requires k < 3
  {
    if k == 0 then v.x else if k == 1 then v.y else v.z
  }

  /** Coordinate `k` (x, y) of `v`. */
  function Coord2(v: Vec2, k: nat): real
    requires k < 2
  {
    if k == 0 then v.x else v.y
  }

  /** The floats of `vs`, three per vector. */
  function Flat3(vs: seq<Vec3>): (r: seq<real>)
    ensures |r| == 3 * |vs|
  {
    if |vs| == 0 then [] else Flat3(vs[..|vs| - 1]) + [vs[|vs| - 1].x, vs[|vs| - 1].y, vs[|vs| - 1].z]
  }

  /** The floats of `vs`, two per vector. */
  function Flat2(vs: seq<Vec2>): (r: seq<real>)
    ensures |r| == 2 * |vs|
  {
    if |vs| == 0 then [] else Flat2(vs[..|vs| - 1]) + [vs[|vs| - 1].x, vs[|vs| - 1].y]
  }

  /** Element `j` of the flat array is coordinate `j % 3` of vector `j / 3`. */
  lemma {:induction false} Flat3At(vs: seq<Vec3>)
    ensures forall j :: 0 <= j < 3 * |vs| ==> Flat3(vs)[j] == Coord3(vs[j / 3], j % 3)
  {
    if |vs| > 0 {
      Flat3At(vs[..|vs| - 1]);
    }
  }

  /** Element `j` of the flat array is coordinate `j % 2` of vector `j / 2`. */
  lemma {:induction false} Flat2At(vs: seq<Vec2>)
    ensures forall j :: 0 <= j < 2 * |vs| ==> Flat2(vs)[j] == Coord2(vs[j / 2], j % 2)
  {
    if |vs| > 0 {
      Flat2At(vs[..|vs| - 1]);
    }
  }

  /** `generate_tree_mesh`'s conversion of the stitched buffers. */
  function Flatten(r: RingMesh): TreeMesh
  {
    TreeMesh(Flat3(r.vertices), Flat3(r.normals), Flat2(r.uvs), r.indices, r.depths)
  }

  /** A well-formed mesh flattens to `3n` vertex and normal floats and `2n` texture
      floats for `n` vertices, with `3n` indices, each below `n`, and `n` depths;
      the floats are the coordinates in order. */
  lemma FlattenLayout(r: RingMesh)
    requires WellFormed(r)
    ensures var t := Flatten(r); var n := |r.vertices|;
      && |t.vertices| == 3 * n && |t.normals| == 3 * n && |t.uvs| == 2 * n && |t.depths| == n
      && |t.indices| == 3 * n && (forall j :: 0 <= j < |t.indices| ==> t.indices[j] < n)
      && (forall j :: 0 <= j < 3 * n ==> t.vertices[j] == Coord3(r.vertices[j / 3], j % 3))
      && (forall j :: 0 <= j < 3 * n ==> t.normals[j] == Coord3(r.normals[j / 3], j % 3))
      && (forall j :: 0 <= j < 2 * n ==> t.uvs[j] == Coord2(r.uvs[j / 2], j % 2))
  {
    Flat3At(r.vertices);
    Flat3At(r.normals);
    Flat2At(r.uvs);
  }

  /** The push loop over the vectors, three floats each. */
  method FlattenVec3(vs: seq<Vec3>) returns (flat: seq<real>)
    ensures flat == Flat3(vs)
  {
    flat := [];
    for i := 0 to |vs|
      invariant flat == Flat3(vs[..i])
    {
      assert vs[..i + 1][..i] == vs[..i];
      var v := vs[i];
      flat := flat + [v.x];
      flat := flat + [v.y];
      flat := flat + [v.z];
    }
    assert vs[..|vs|] == vs;
  }

  /** The push loop over the texture coordinates, two floats each. */
  method FlattenVec2(vs: seq<Vec2>) returns (flat: seq<real>)
    ensures flat == Flat2(vs)
  {
    flat := [];
    for i := 0 to |vs|
      invariant flat == Flat2(vs[..i])
    {
      assert vs[..i + 1][..i] == vs[..i];
      var v := vs[i];
      flat := flat + [v.x];
      flat := flat + [v.y];
    }
    assert vs[..|vs|] == vs;
  }

  /** The name `twig_type` reports. */
  function TwigTypeName(t: TwigType): string
  {
    match t
    case LeafCluster => "LeafCluster"
    case SmallBranch => "SmallBranch"
    case BranchTip => "BranchTip"
  }

  /** Distinct twig types get distinct names. */
  lemma TwigTypeNamesDistinct(s: TwigType, t: TwigType)
    ensures TwigTypeName(s) == TwigTypeName(t) <==> s == t
  {
    if s != t {
      assert TwigTypeName(s)[0] != TwigTypeName(t)[0];
    }
  }

  /** A tree arena has every link in range, so its mesh can be stitched. */
  lemma TreeLinksInRange(a: seq<CrossSection>)
    requires IsTree(a)
    ensures LinksInRange(a)
  {
  }

  // ---------------------------------------------------------------------------
  // The object

  class TreeObject {
    var params: TreeParameters
    var tree: TreeStructure
    /** The geometric primitives and the seed-to-stream map the pass runs with. */
    const m: Math
    const streamOf: nat -> (nat -> Word)

    /** The parameters are normalised and the tree is the pass for them. */
    ghost predicate Valid()
      reads this, tree
    {
      && Normalised(params)
      && Generated(tree.crossSections, tree.twigs) == Pass(params, m, streamOf(params.general.seed))
    }

    /** `TreeObject::new`: the defaults, and the tree they generate. */
    constructor (seed: nat, trunkHeight: real, buttressing: real, m: Math, streamOf: nat -> (nat -> Word))
      ensures Valid()
      ensures params == Defaults(seed, trunkHeight, buttressing)
      ensures this.m == m && this.streamOf == streamOf
    {
      this.m := m;
      this.streamOf := streamOf;
      params := Defaults(seed, trunkHeight, buttressing);
      tree := new TreeStructure();  // replaced at once by the generated tree
      new;
      DefaultsNormalised(seed, trunkHeight, buttressing);
      Regenerate();
    }

    /** `regenerate_tree`: a fresh pass over the current parameters. */
    method Regenerate()
      requires Normalised(params)
      modifies this
      ensures params == old(params)
      ensures Valid()
    {
      tree := GenerateTree(params, m, streamOf);
    }

    method SetTrunkHeight(height: real)
      requires Valid()
      modifies this
      ensures params == old(params).(trunk := old(params).trunk.(height := height))
      ensures Valid()
    {
      params := params.(trunk := params.trunk.(height := height));
      Regenerate();
    }

    method SetButtressing(buttressing: real)
      requires Valid()
      modifies this
      ensures params == old(params).(trunk := old(params).trunk.(buttressing := buttressing))
      ensures Valid()
    {
      params := params.(trunk := params.trunk.(buttressing := buttressing));
      Regenerate();
    }

    method SetSplitHeight(splitHeight: real)
      requires Valid()
      modifies this
      ensures params == old(params).(trunk := old(params).trunk.(splitHeight := splitHeight))
      ensures Valid()
    {
      params := params.(trunk := params.trunk.(splitHeight := splitHeight));
      Regenerate();
    }

    method SetSegmentLength(segmentLength: real)
      requires Valid()
      modifies this
      ensures params == old(params).(trunk := old(params).trunk.(segmentLength := Max(segmentLength, 0.01)))
      ensures Valid()
    {
      params := params.(trunk := params.trunk.(segmentLength := Max(segmentLength, 0.01)));
      Regenerate();
    }

    method SetBranchAngleRange(lo: real, hi: real)
      requires Valid()
      modifies this
      ensures var r := OrderedPair(lo, hi);
        params == old(params).(branching := old(params).branching.(angleMin := r.0, angleMax := r.1))
      ensures Valid()
    {
      var r := OrderedPair(lo, hi);
      params := params.(branching := params.branching.(angleMin := r.0, angleMax := r.1));
      Regenerate();
    }

    method SetBendAngleRange(lo: real, hi: real)
      requires Valid()
      modifies this
      ensures var r := OrderedPair(lo, hi);
        params == old(params).(branching := old(params).branching.(bendAngleMin := r.0, bendAngleMax := r.1))
      ensures Valid()
    {
      var r := OrderedPair(lo, hi);
      params := params.(branching := params.branching.(bendAngleMin := r.0, bendAngleMax := r.1));
      Regenerate();
    }

    method SetBranchFrequencyRange(lo: nat, hi: nat)
      requires Valid()
      modifies this
      ensures var r := FrequencyRange(lo, hi);
        params == old(params).(branching := old(params).branching.(frequencyMin := r.0, frequencyMax := r.1))
      ensures Valid()
    {
      var r := FrequencyRange(lo, hi);
      FrequencyRangeValid(lo, hi);
      params := params.(branching := params.branching.(frequencyMin := r.0, frequencyMax := r.1));
      Regenerate();
    }

    method SetMaxDepth(maxDepth: nat)
      requires Valid()
      modifies this
      ensures params == old(params).(general := old(params).general.(maxDepth := NatMax(maxDepth, 1)))
      ensures Valid()
    {
      params := params.(general := params.general.(maxDepth := NatMax(maxDepth, 1)));
      Regenerate();
    }

    method SetRadiusTaper(radiusTaper: real)
      requires Valid()
      modifies this
      ensures params == old(params).(branching := old(params).branching.(radiusTaper := Clamp(radiusTaper, 0.1, 1.0)))
      ensures Valid()
    {
      params := params.(branching := params.branching.(radiusTaper := Clamp(radiusTaper, 0.1, 1.0)));
      Regenerate();
    }

    method SetTrunkRingSpread(ringSpread: real)
      requires Valid()
      modifies this
      ensures params == old(params).(trunk := old(params).trunk.(ringSpread := Clamp(ringSpread, 0.0, 2.0)))
      ensures Valid()
    {
      params := params.(trunk := params.trunk.(ringSpread := Clamp(ringSpread, 0.0, 2.0)));
      Regenerate();
    }

    method SetSegmentLengthVariation(variation: real)
      requires Valid()
      modifies this
      ensures params == old(params).(trunk := old(params).trunk.(segmentLengthVariation := Clamp(variation, 0.0, 1.0)))
      ensures Valid()
    {
      params := params.(trunk := params.trunk.(segmentLengthVariation := Clamp(variation, 0.0, 1.0)));
      Regenerate();
    }

    method SetTrunkSize(size: real)
      requires Valid()
      modifies this
      ensures params == old(params).(trunk := old(params).trunk.(size := Clamp(size, 0.1, 10.0)))
      ensures Valid()
    {
      params := params.(trunk := params.trunk.(size := Clamp(size, 0.1, 10.0)));
      Regenerate();
    }

    method SetBranchAzimuthVariation(variation: real)
      requires Valid()
      modifies this
      ensures params == old(params).(branching := old(params).branching.(azimuthVariation := Clamp(variation, 0.0, 1.0)))
      ensures Valid()
    {
      params := params.(branching := params.branching.(azimuthVariation := Clamp(variation, 0.0, 1.0)));
      Regenerate();
    }

    method SetMaxBranchReach(reach: real)
      requires Valid()
      modifies this
      ensures params == old(params).(branching := old(params).branching.(maxReach := Clamp(reach, 2.0, 50.0)))
      ensures Valid()
    {
      params := params.(branching := params.branching.(maxReach := Clamp(reach, 2.0, 50.0)));
      Regenerate();
    }

    method SetRootEnable(enable: bool)
      requires Valid()
      modifies this
      ensures params == old(params).(roots := old(params).roots.(enable := enable))
      ensures Valid()
    {
      params := params.(roots := params.roots.(enable := enable));
      Regenerate();
    }

    method SetRootDepth(depth: real)
      requires Valid()
      modifies this
      ensures params == old(params).(roots := old(params).roots.(depth := Clamp(depth, 0.5, 3.0)))
      ensures Valid()
    {
      params := params.(roots := params.roots.(depth := Clamp(depth, 0.5, 3.0)));
      Regenerate();
    }

    method SetRootSpread(spread: real)
      requires Valid()
      modifies this
      ensures params == old(params).(roots := old(params).roots.(spread := Clamp(spread, 0.5, 2.0)))
      ensures Valid()
    {
      params := params.(roots := params.roots.(spread := Clamp(spread, 0.5, 2.0)));
      Regenerate();
    }

    method SetRootDensity(density: nat)
      requires Valid()
      modifies this
      ensures params == old(params).(roots := old(params).roots.(density := ClampNat(density, 2, 8)))
      ensures Valid()
    {
      params := params.(roots := params.roots.(density := ClampNat(density, 2, 8)));
      Regenerate();
    }

    method SetRootSegmentLength(segmentLength: real)
      requires Valid()
      modifies this
      ensures params == old(params).(roots := old(params).roots.(segmentLength := Clamp(segmentLength, 0.1, 0.8)))
      ensures Valid()
    {
      params := params.(roots := params.roots.(segmentLength := Clamp(segmentLength, 0.1, 0.8)));
      Regenerate();
    }

    method SetTwigEnable(enable: bool)
      requires Valid()
      modifies this
      ensures params == old(params).(twigs := old(params).twigs.(enable := enable))
      ensures Valid()
    {
      params := params.(twigs := params.twigs.(enable := enable));
      Regenerate();
    }

    method SetTwigDensity(density: real)
      requires Valid()
      modifies this
      ensures params == old(params).(twigs := old(params).twigs.(density := Clamp(density, 0.1, 2.0)))
      ensures Valid()
    {
      params := params.(twigs := params.twigs.(density := Clamp(density, 0.1, 2.0)));
      Regenerate();
    }

    method SetTwigScale(scale: real)
      requires Valid()
      modifies this
      ensures params == old(params).(twigs := old(params).twigs.(scale := Clamp(scale, 0.1, 3.0)))
      ensures Valid()
    {
      params := params.(twigs := params.twigs.(scale := Clamp(scale, 0.1, 3.0)));
      Regenerate();
    }

    method SetTwigAngleVariation(variation: real)
      requires Valid()
      modifies this
      ensures params == old(params).(twigs := old(params).twigs.(angleVariation := Clamp(variation, 0.0, 1.0)))
      ensures Valid()
    {
      params := params.(twigs := params.twigs.(angleVariation := Clamp(variation, 0.0, 1.0)));
      Regenerate();
    }

    /** `rings_count`: the number of cross-sections. */
    function RingsCount(): nat
      reads this, tree
    {
      |tree.crossSections|
    }

    /** `ring_center`: the centre of cross-section `index`, if there is one. */
    function RingCenter(index: nat): (r: Option<Vec3>)
      reads this, tree
      ensures r.Some? <==> index < RingsCount()
      ensures r.Some? ==> r.value == tree.crossSections[index].center
    {
      if index < |tree.crossSections| then Some(tree.crossSections[index].center) else None
    }

    /** `ring_radius`: the radius of the first ring of cross-section `index`, if
        there is such a cross-section and it has a ring. */
    function RingRadius(index: nat): (r: Option<real>)
      reads this, tree
      ensures r.Some? <==> index < RingsCount() && |tree.crossSections[index].rings| > 0
      ensures r.Some? ==> r.value == tree.crossSections[index].rings[0].radius
    {
      if index < |tree.crossSections| && |tree.crossSections[index].rings| > 0
      then Some(tree.crossSections[index].rings[0].radius)
      else None
    }

    /** `twigs_count`: the number of twigs. */
    function TwigsCount(): nat
      reads this, tree
    {
      |tree.twigs|
    }

    /** Twig `index`, if there is one; every twig accessor reads one field of it. */
    function TwigAt(index: nat): (r: Option<Twig>)
      reads this, tree
      ensures r.Some? <==> index < TwigsCount()
      ensures r.Some? ==> r.value == tree.twigs[index]
    {
      if index < |tree.twigs| then Some(tree.twigs[index]) else None
    }

    /** `twig_position`. */
    function TwigPosition(index: nat): (r: Option<Vec3>)
      reads this, tree
      ensures r.Some? <==> index < TwigsCount()
      ensures r.Some? ==> r.value == tree.twigs[index].position
    {
      match TwigAt(index)
      case Some(t) => Some(t.position)
      case None => None
    }

    /** `twig_orientation_x` .. `twig_orientation_w`: component `k` (x, y, z, w). */
    function TwigOrientation(index: nat, k: nat): (r: Option<real>)
      requires k < 4
      reads this, tree
      ensures r.Some? <==> index < TwigsCount()
    {
      match TwigAt(index)
      case Some(t) =>
        Some(if k == 0 then t.orientation.x else if k == 1 then t.orientation.y
             else if k == 2 then t.orientation.z else t.orientation.w)
      case None => None
    }

    /** `twig_scale`. */
    function TwigScale(index: nat): (r: Option<real>)
      reads this, tree
      ensures r.Some? <==> index < TwigsCount()
      ensures r.Some? ==> r.value == tree.twigs[index].scale
    {
      match TwigAt(index)
      case Some(t) => Some(t.scale)
      case None => None
    }

    /** `twig_type`. */
    function TwigTypeAt(index: nat): (r: Option<string>)
      reads this, tree
      ensures r.Some? <==> index < TwigsCount()
      ensures r.Some? ==> r.value == TwigTypeName(tree.twigs[index].twigType)
    {
      match TwigAt(index)
      case Some(t) => Some(TwigTypeName(t.twigType))
      case None => None
    }

    /** `generate_tree_mesh`: stitch the arena, then flatten the vectors. */
    method GenerateTreeMesh(resolution: nat) returns (mesh: TreeMesh)
      requires Valid()
      ensures LinksInRange(tree.crossSections)
      ensures mesh == Flatten(MeshOf(tree.crossSections, resolution, m))
    {
      ArenaShape(params, m, streamOf(params.general.seed));
      TreeLinksInRange(tree.crossSections);
      var ringMesh := GenerateMesh(tree.crossSections, resolution, m);
      var vertices := FlattenVec3(ringMesh.vertices);
      var normals := FlattenVec3(ringMesh.normals);
      var uvs := FlattenVec2(ringMesh.uvs);
      mesh := TreeMesh(vertices, normals, uvs, ringMesh.indices, ringMesh.depths);
    }
  }

  /** Every pass starts its arena with the trunk base: at the origin, with at
      least one ring. */
  lemma PassBase(p: TreeParameters, m: Math, w: nat -> Word)
    requires DrawableRanges(p.twigs)
    ensures var a := Pass(p, m, w).crossSections;
      |a| >= 1 && a[0].center == Zero3 && |a[0].rings| > 0
  {
    ArenaShape(p, m, w);
    TrunkArena(p.trunk, m);
  }

  /** With roots enabled, the last cross-section of a pass is the third root
      segment, `3 * segment_length` below the origin. */
  lemma PassRootTip(p: TreeParameters, m: Math, w: nat -> Word)
    requires DrawableRanges(p.twigs) && p.roots.enable
    ensures var a := Pass(p, m, w).crossSections;
      |a| >= 1 && a[|a| - 1].center == Vec3(0.0, -(3.0 * p.roots.segmentLength), 0.0)
  {
    ArenaRoots(p, m, w);
    var n := |AfterBranching(p, m, w).arena|;
    assert RootSegmentAt(Arena(p, m, w), n, p.roots.segmentLength, TrunkBase(p.trunk, m).rings, n + 2);
  }

  /** What the accessors of a valid object report: at least one cross-section,
      the first at the origin with a first ring; with roots enabled the last is the
      third root segment; with twigs disabled no twigs, otherwise every twig scale
      within half and one-and-a-half times the twig scale. */
  lemma AccessorsOfValid(o: TreeObject)
    requires o.Valid()
    ensures o.RingsCount() >= 1
    ensures o.RingCenter(0) == Some(Zero3)
    ensures o.RingRadius(0).Some?
    ensures o.params.roots.enable ==>
      o.RingCenter(o.RingsCount() - 1) == Some(Vec3(0.0, -(3.0 * o.params.roots.segmentLength), 0.0))
    ensures !o.params.twigs.enable ==> o.TwigsCount() == 0
    ensures forall k :: 0 <= k < o.TwigsCount() ==>
      o.TwigScale(k).Some? && 0.5 * o.params.twigs.scale <= o.TwigScale(k).value <= 1.5 * o.params.twigs.scale
  {
    var p, w := o.params, o.streamOf(o.params.general.seed);
    PassBase(p, o.m, w);
    if p.roots.enable {
      PassRootTip(p, o.m, w);
    }
    PassTwigs(p, o.m, w);
  }

  /** The flat mesh of a valid object: `3n` vertex and normal floats, `2n` texture
      floats, `n` depths and `3n` indices, each naming one of the `n` vertices. */
  lemma TreeMeshOfValid(o: TreeObject, resolution: nat)
    requires o.Valid()
    ensures LinksInRange(o.tree.crossSections)
    ensures var t := Flatten(MeshOf(o.tree.crossSections, resolution, o.m)); var n := |t.depths|;
      && |t.vertices| == 3 * n && |t.normals| == 3 * n && |t.uvs| == 2 * n
      && |t.indices| == 3 * n && (forall j :: 0 <= j < |t.indices| ==> t.indices[j] < n)
  {
    ArenaShape(o.params, o.m, o.streamOf(o.params.general.seed));
    TreeLinksInRange(o.tree.crossSections);
    MeshOfWellFormed(o.tree.crossSections, resolution, o.m);
    FlattenLayout(MeshOf(o.tree.crossSections, resolution, o.m));
  }
}
