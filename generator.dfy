/** `ModularTreeGenerator::generate_tree`: one pass over a fresh tree and one
    generator seeded from `general.seed`, running the trunk, branching, root and
    twig stages in that order. How `SmallRng::seed_from_u64` turns a seed into a
    stream is a parameter (`streamOf`). */
module Generator {
  import opened Geometry
  import opened Structure
  import opened Parameters
  import opened Random
  import opened Rings
  import opened Trunk
  import opened Branching
  import opened BranchingFacts
  import opened Roots
  import opened Twigs
  import opened TwigPlacement

  /** A generated tree as a value: the cross-section arena and the twig list. */
  datatype Generated = Generated(crossSections: seq<CrossSection>, twigs: seq<Twig>)

  /** What the branching engine reads from the parameters. */
  function ConfigOf(p: TreeParameters, m: Math): Config
  {
    Config(p.general, p.trunk, p.branching, m)
  }

  /** The arena and stream position once the trunk stage (no draws) and the
      branching stage have run on a fresh tree. */
  function AfterBranching(p: TreeParameters, m: Math, words: nat -> Word): (s: GrowState)
    ensures 0 < |s.arena|
  {
    Branches(ConfigOf(p, m), words, GrowState([TrunkBase(p.trunk, m)], 0))
  }

  /** The arena once the root stage (no draws) has extended what branching grew. */
  function Arena(p: TreeParameters, m: Math, words: nat -> Word): seq<CrossSection>
  {
    RootsStage(p.roots, AfterBranching(p, m, words).arena)
  }

  /** The whole pass on the stream `words`: the twig stage starts from an empty
      twig list where the branching stage left the stream. */
  function Pass(p: TreeParameters, m: Math, words: nat -> Word): Generated
    requires DrawableRanges(p.twigs)
  {
    var a := Arena(p, m, words);
    Generated(a, TwigStage(p.twigs, a, [], AfterBranching(p, m, words).pos, words, m).twigs)
  }

  /** `generate_tree`. The result is a function of the parameters and the stream
      the seed selects, so equal parameters give equal trees. */
  method GenerateTree(p: TreeParameters, m: Math, streamOf: nat -> (nat -> Word)) returns (tree: TreeStructure)
    requires DrawableRanges(p.twigs)
    ensures fresh(tree)
    ensures Generated(tree.crossSections, tree.twigs) == Pass(p, m, streamOf(p.general.seed))
  {
    tree := new TreeStructure();
    var rng := new Rng(streamOf(p.general.seed));
    ghost var words := rng.words;
    GenerateTrunk(p.trunk, m, tree, rng);
    GenerateBranches(ConfigOf(p, m), tree, rng);
    assert GrowState(tree.crossSections, rng.pos) == AfterBranching(p, m, words);
    GenerateRoots(p.roots, tree);
    GenerateTwigs(p.twigs, tree, m, rng);
  }

  /** What branching leaves on a fresh trunk base: a tree whose entry 0 is the
      base with children added and whose other entries lie below `max_depth`. */
  lemma GrownFromBase(p: TreeParameters, m: Math, words: nat -> Word)
    ensures var b := AfterBranching(p, m, words).arena;
      && IsTree(b)
      && b[0] == TrunkBase(p.trunk, m).(children := b[0].children)
      && (forall i :: 0 < i < |b| ==> b[i].depth < p.general.maxDepth)
  {
    TrunkArena(p.trunk, m);
    BranchesFacts(ConfigOf(p, m), words, GrowState([TrunkBase(p.trunk, m)], 0), 0.0);
  }

  /** The root stage keeps those three facts, with root segments at depth 0. */
  lemma RootsKeepShape(roots: RootParams, b: seq<CrossSection>, maxDepth: nat)
    requires 0 < |b| && IsTree(b)
    requires forall i :: 0 < i < |b| ==> b[i].depth < maxDepth
    ensures var a := RootsStage(roots, b);
      && IsTree(a)
      && a[0] == b[0].(children := a[0].children)
      && (forall i :: 0 < i < |a| ==> a[i].depth == 0 || a[i].depth < maxDepth)
  {
    RootsStageFacts(roots, b);
    var a := RootsStage(roots, b);
    forall i | 0 < i < |a|
      ensures a[i].depth == 0 || a[i].depth < maxDepth
    {
      if roots.enable && i >= |b| {
        assert a[i] == RootSection(b[0], roots.segmentLength, i - |b|).(children := a[i].children);
      } else {
        assert a[i] == b[i];
      }
    }
  }

  /** The shape of every generated arena: a tree whose entry 0 is the trunk base
      (only its children list differs), in which every entry of nonzero depth lies
      below `max_depth`. */
  lemma ArenaShape(p: TreeParameters, m: Math, words: nat -> Word)
    ensures var a := Arena(p, m, words);
      && 0 < |a|
      && IsTree(a)
      && a[0] == TrunkBase(p.trunk, m).(children := a[0].children)
      && (forall i :: 0 <= i < |a| ==> a[i].depth == 0 || a[i].depth < p.general.maxDepth)
  {
    GrownFromBase(p, m, words);
    RootsKeepShape(p.roots, AfterBranching(p, m, words).arena, p.general.maxDepth);
  }

  /** Entries `n`, `n + 1`, `n + 2` are the last three of `a` and form the root
      chain hanging from entry 0: segment `k` (entry `n + k`) is `(k + 1) * segment_length`
      straight below the origin with the base rings narrowed by `0.1 * k`, the
      base's last child is the first segment, and each segment is the only child
      of the one before. */
  ghost predicate RootChainAt(a: seq<CrossSection>, n: nat, segmentLength: real, baseRings: seq<ComponentRing>)
  {
    && |a| == n + 3
    && 0 < |a[0].children| && a[0].children[|a[0].children| - 1] == n
    && (forall i :: n <= i < n + 3 ==> RootSegmentAt(a, n, segmentLength, baseRings, i))
  }

  /** Entry `i` is root segment `i - n`. */
  ghost predicate RootSegmentAt(a: seq<CrossSection>, n: nat, segmentLength: real, baseRings: seq<ComponentRing>, i: nat)
  {
    && n <= i < |a|
    && a[i].center == Vec3(0.0, -((i - n + 1) as real * segmentLength), 0.0)
    && a[i].depth == 0
    && a[i].rings == RootRings(baseRings, i - n)
    && a[i].children == (if i < n + 2 then [i + 1] else [])
  }

  /** With roots enabled, the arena ends in the root chain below the trunk base;
      with roots disabled it is exactly what branching grew. */
  lemma ArenaRoots(p: TreeParameters, m: Math, words: nat -> Word)
    ensures !p.roots.enable ==> Arena(p, m, words) == AfterBranching(p, m, words).arena
    ensures p.roots.enable ==> RootChainAt(Arena(p, m, words), |AfterBranching(p, m, words).arena|,
                                           p.roots.segmentLength, TrunkBase(p.trunk, m).rings)
  {
    if p.roots.enable {
      GrownFromBase(p, m, words);
      RootChain(p.roots, AfterBranching(p, m, words).arena, TrunkBase(p.trunk, m).rings);
    }
  }

  /** The root stage on an arena whose entry 0 is centred at the origin. */
  lemma RootChain(roots: RootParams, b: seq<CrossSection>, baseRings: seq<ComponentRing>)
    requires 0 < |b| && IsTree(b) && roots.enable
    requires b[0].center == Zero3 && b[0].rings == baseRings
    ensures RootChainAt(RootsStage(roots, b), |b|, roots.segmentLength, baseRings)
  {
    RootsStageFacts(roots, b);
    var a := RootsStage(roots, b);
    var n := |b|;
    assert a[0].children == b[0].children + [n];
    forall i | n <= i < n + 3
      ensures RootSegmentAt(a, n, roots.segmentLength, baseRings, i)
    {
      if i == n {
        assert a[i] == RootSection(b[0], roots.segmentLength, 0).(children := [n + 1]);
      } else if i == n + 1 {
        assert a[i] == RootSection(b[0], roots.segmentLength, 1).(children := [n + 2]);
      } else {
        assert a[i] == RootSection(b[0], roots.segmentLength, 2).(children := []);
      }
    }
  }

  /** The twigs of a generated tree: none when the stage is disabled (a fresh tree
      has none) or when no ring passes the gate; otherwise each is scaled within
      `[0.5 s, 1.5 s]` and there are at most 12 per gated ring. */
  lemma PassTwigs(p: TreeParameters, m: Math, words: nat -> Word)
    requires DrawableRanges(p.twigs)
    ensures !p.twigs.enable ==> Pass(p, m, words).twigs == []
    ensures p.twigs.enable ==>
      var g := GatedSections(Arena(p, m, words), 0, StageParams(p.twigs));
      && |Pass(p, m, words).twigs| <= MaxTwigs * g
      && (forall k :: 0 <= k < |Pass(p, m, words).twigs| ==>
            0.5 * p.twigs.scale <= Pass(p, m, words).twigs[k].scale <= 1.5 * p.twigs.scale)
  {
    TwigStageFacts(p.twigs, Arena(p, m, words), [], AfterBranching(p, m, words).pos, words, m);
  }
}
