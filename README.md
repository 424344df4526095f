# Procedural tree skeletons: a Dafny model

This project models two parts of the trees-2025 repository.

The first is the `tree-engine` package: a procedural tree generator. It runs four
stages on one append-only arena of cross-sections and one seeded random generator,
in a fixed order:
- the trunk stage resets the arena to one base cross-section, whose rings conserve the trunk's area;
- the branching engine grows the skeleton recursively, either continuing a limb or opening a branch point with two children;
- the root stage appends three straight segments below the base;
- the twig stage scans every ring, gates it with a draw, and places twigs.

The same part includes the mesh stitcher, which samples each cross-section's outline
and joins every parent to each of its children with a band of quads. It also includes
the host object: it holds the parameters, clamps every setter's input, regenerates the
tree, and answers index queries.

The second is the older `tree-rs` prototype: a tree of branches in a vector, where
`grow` widens internal branches, lengthens short leaves and splits long leaves in two.

Modelling conventions:
- `f32` is `real`; rounding and NaN are not modelled.
- sine, cosine, square root, normalisation and quaternion rotation are fields of a `Math` record, and the prototype's quaternion product and rotation are fields of `QuatOps`. All of them are uninterpreted; nothing is claimed about geometry they compute.
- The random generator is a stream of words (`Random`). Every `gen_range` reads one word and advances the position by one. What the model keeps is the draw order and the range of every draw.
- Every imperative operation is a `method` proved equal to a specification function, with `ensures state == Spec(old state)`. The properties are proved about those functions as lemmas.

## Model

| member | source | states |
|---|---|---|
| Random.UnitAt | packages/tree-engine/src/core/mod.rs:40-46 | the unit fraction read from the stream lies in [0, 1) |
| Random.RealIn | packages/tree-engine/src/branching/mod.rs:102-122 | a float draw from `lo..hi` lies in [lo, hi], and below hi when the range is not a point |
| Random.Lerp | packages/tree-engine/src/branching/mod.rs:102-122 | the point a fraction u in [0,1) of the way from lo to hi lies in [lo, hi], and below hi when lo < hi |
| Random.IntIn | packages/tree-engine/src/branching/mod.rs:124-127 | an integer draw from `lo..=hi` lies in [lo, hi] |
| Random.Rng.GenRange | packages/tree-engine/src/twigs/placement.rs:25 | one float draw reads the word at the current position and advances the position by exactly one |
| Random.Rng.GenRangeInt | packages/tree-engine/src/branching/mod.rs:124-127 | one integer draw reads the word at the current position and advances the position by exactly one |
| Random.Rng.constructor | packages/tree-engine/src/core/mod.rs:40-46 | a fresh generator starts at position 0 of the stream its seed selects |
| Rings.RingCount | packages/tree-engine/src/trunk/rings.rs:16-20 | the ring count is 1 below buttressing 0.7, otherwise the truncation of `(b - 0.5)*3 + 1`, always at least 1 |
| Rings.HeightFactor | packages/tree-engine/src/trunk/rings.rs:50-55 | the flare factor lies in [0.25, 1]; it is 1 for a non-positive trunk height or at the base, and 0.25 at or above the top |
| Rings.TrunkRings | packages/tree-engine/src/trunk/rings.rs:24-71 | exactly `RingCount` rings; the first is centred and MainTrunk, every other is SideBranch; all share one radius |
| Rings.GenerateTrunkRings | packages/tree-engine/src/trunk/rings.rs:22-72 | the push loop builds exactly `TrunkRings` |
| Rings.TrunkRingsConserveArea | packages/tree-engine/src/trunk/rings.rs:25-68 | with a true square root, `count * r^2 = (0.5 * size)^2` for every ring |
| Rings.OuterRingsOnCircle | packages/tree-engine/src/trunk/rings.rs:57-68 | with a true sine and cosine, every outer ring sits at the spread distance from the centre |
| Rings.BaseHasFullSpread | packages/tree-engine/src/trunk/rings.rs:50-57 | at height 0 the spread distance is `base radius * ring_spread` |
| Rings.ChildRing | packages/tree-engine/src/trunk/rings.rs:77-87 | a child ring copies offset and type; for a taper in [0,1] its radius does not grow |
| Trunk.TrunkArena | packages/tree-engine/src/trunk/mod.rs:34-47 | the arena after the trunk stage is one tree entry at the origin, depth 0, no children, `RingCount` rings, first centred and MainTrunk |
| Trunk.GenerateTrunk | packages/tree-engine/src/trunk/mod.rs:26-48 | the arena is cleared and holds only the base built from the rings at height 0; the generator and the twigs are untouched |
| Structure.ParentFrom | tree-rs/src/tree_structure.rs:129-141 | the first entry from `from` whose children list `c`, or none when no such entry exists |
| Structure.AppendChild | tree-rs/src/tree_structure.rs:129-141 | the new entry is at the old length, the parent gains that index as its last child, and every other entry is unchanged |
| Structure.AppendChildParent | tree-rs/src/tree_structure.rs:129-141 | after appending, links stay in range and the new entry's parent is the given one |
| Structure.ParentFromFirst | tree-rs/src/tree_structure.rs:129-141 | the parent search returns the first entry that lists the child |
| Structure.AppendChildKeepsTree | tree-rs/src/tree_structure.rs:129-141 | appending a leaf under an existing entry keeps the arena a tree (forward links, unique children, every entry reachable) |
| Structure.AppendChildKeepsUnique | tree-rs/src/tree_structure.rs:129-141 | appending a leaf keeps every child index listed once |
| Structure.AppendChildEntry | tree-rs/src/tree_structure.rs:129-141 | a child index after appending is either the new one or the old one at the same place |
| Structure.TreeStructure.constructor | tree-rs/src/tree_structure.rs:119-127 | a new tree has no cross-sections and no twigs |
| Structure.TreeStructure.AddCrossSection | tree-rs/src/tree_structure.rs:129-141 | returns the old length and appends the section, linked under the parent when one is given; nothing else changes |
| Structure.TreeStructure.AddComponentRing | tree-rs/src/tree_structure.rs:143-151 | returns the ring's id (section, old ring count) and appends only to that section's ring list |
| Branching.MinSegmentsForHeight | packages/tree-engine/src/branching/mod.rs:65-78 | `ceil(height / segment_length)` saturated to `u32`, exact on positive in-range quotients |
| Branching.MaxSegmentsAtDepth | packages/tree-engine/src/branching/mod.rs:65-78 | the per-depth cap: at depths 0-2 at least 20, and exactly `max(min_segments+10, 20)` when the addition does not wrap; exactly 8, 4, 3 and 2 at depths 3-5, 6-8, 9-12 and 13-16; 1 beyond |
| Branching.BendReduction | packages/tree-engine/src/branching/mod.rs:102-115 | the bend reduction lies in (0, 1] |
| Branching.RingWithinSumSquares | packages/tree-engine/src/branching/mod.rs:89-94 | no ring's squared radius exceeds the sum the effective-radius test takes over all rings |
| Branching.WideRingNotTooThin | packages/tree-engine/src/branching/mod.rs:89-94 | a section holding any ring of radius at least 0.005 is never stopped as too thin |
| Branching.BendRangeOrdered | packages/tree-engine/src/branching/mod.rs:102-115 | the bend range drawn from is ordered, so the draw is never empty |
| Branching.Advance | packages/tree-engine/src/branching/mod.rs:102-127 | one growth step reads exactly five draws, and its branching threshold lies in the frequency range |
| Branching.StepFrom | packages/tree-engine/src/branching/mod.rs:102-122 | the next centre is the current one moved along the bent direction by the varied segment length |
| Branching.SegmentLength | packages/tree-engine/src/branching/mod.rs:117-122 | a step is at least a tenth of a non-negative segment length |
| Branching.ContinuationTaper | packages/tree-engine/src/branching/mod.rs:146-150 | for `radius_taper` in [0, 1] the continuation taper lies in [0.6, 1] |
| Branching.ContinuationRings | packages/tree-engine/src/branching/mod.rs:152-175 | one child ring per parent ring, in order, same type, radius times the taper; offsets kept except the depth-0 flare of trunk and side lobes |
| Branching.ContinueRings | packages/tree-engine/src/branching/mod.rs:152-175 | the push loop builds exactly `ContinuationRings` |
| Branching.BranchTaper | packages/tree-engine/src/branching/mod.rs:243-244 | for `radius_taper` in [0, 1] the branch-point taper lies in [0.85, 1] |
| Branching.SplitRings | packages/tree-engine/src/branching/mod.rs:250-282 | one ring goes to both children at x0.95 and x0.8; n>1 rings give the first n-1 to the trunk at x0.95 and the last to the branch at the full taper; none gives none |
| Branching.SplitRingsLoop | packages/tree-engine/src/branching/mod.rs:250-282 | the splitting loop builds exactly `SplitRings` |
| Branching.BranchDirection | packages/tree-engine/src/branching/mod.rs:218-240 | the branch direction takes one draw, plus one more for the azimuth when `azimuth_variation > 0` |
| Branching.Grow | packages/tree-engine/src/branching/mod.rs:47-204 | the recursive walk only appends to the arena and only advances the stream; it terminates by `(max_depth - depth, cap - segments)` |
| Branching.GrowStep | packages/tree-engine/src/branching/mod.rs:102-202 | one step past the stops only appends and only advances the stream |
| Branching.BranchChildren | packages/tree-engine/src/branching/mod.rs:284-300 | both children of a branch point sit one level deeper, with no children, carrying the trunk and branch halves of the split |
| Branching.BranchStart | packages/tree-engine/src/branching/mod.rs:206-309 | opening a branch point appends exactly two entries and advances the stream |
| Branching.CreateBranches | packages/tree-engine/src/branching/mod.rs:206-337 | a branch point appends at least its two children and only advances the stream |
| Branching.GrowChildren | packages/tree-engine/src/branching/mod.rs:312-336 | growing the trunk child and then the branch child only appends and only advances the stream |
| Branching.GrowContinues | packages/tree-engine/src/branching/mod.rs:145-202 | when no stop and no branch applies, the walk appends the tapered continuation under the entry and recurses on it with the counters advanced |
| Branching.GrowStops | packages/tree-engine/src/branching/mod.rs:59-100 | at a hard stop the walk changes neither the arena nor the stream |
| Branching.GrowBranches | packages/tree-engine/src/branching/mod.rs:124-143 | when the branch decision holds, the walk is `create_coordinated_branches` at that step |
| Branching.GrowFrame | packages/tree-engine/src/branching/mod.rs:186-309 | a call on entry `idx` appends entries, adds children to `idx` only, leaves every other entry unchanged, and appends only depths in [depth, max_depth) linked forward |
| Branching.ContinueFrame | packages/tree-engine/src/branching/mod.rs:177-202 | the continuation case of the frame property |
| Branching.BranchesFrame | packages/tree-engine/src/branching/mod.rs:302-309 | a branch point gives its parent exactly two new children, trunk then branch, one level deeper with the split rings |
| Branching.GrowChildrenFrame | packages/tree-engine/src/branching/mod.rs:312-336 | growing the trunk child, then the branch child, keeps each call's frame |
| Branching.ContinuationGrown | packages/tree-engine/src/branching/mod.rs:186-202 | appending a continuation and growing it is a frame-respecting growth of the parent |
| Branching.BranchGrown | packages/tree-engine/src/branching/mod.rs:302-336 | a branch point and its two subtrees are a frame-respecting growth of the parent, whose children gain exactly `[len, len+1]` |
| Branching.Branches | packages/tree-engine/src/branching/mod.rs:22-45 | `generate_branches` does nothing on an empty arena, and otherwise only appends and only advances the stream |
| Branching.GenerateBranches | packages/tree-engine/src/branching/mod.rs:22-45 | the in-place engine leaves exactly the arena and stream position that `Branches` computes |
| Branching.GenerateCoordinatedRecursive | packages/tree-engine/src/branching/mod.rs:47-204 | the in-place recursive walk leaves exactly the arena and stream position that `Grow` computes |
| Branching.ContinueCoordinated | packages/tree-engine/src/branching/mod.rs:145-202 | the in-place continuation path leaves exactly what the continuation case of `Grow` computes |
| Branching.AppendContinuation | packages/tree-engine/src/branching/mod.rs:146-188 | appends the tapered continuation section under `idx` at the old length |
| Branching.DrawStep | packages/tree-engine/src/branching/mod.rs:102-127 | the five in-place draws of a step give exactly `Advance` |
| Branching.DrawStepValues | packages/tree-engine/src/branching/mod.rs:102-127 | draws bend angle, axis x, axis z, length variation and threshold, in that order, one word each |
| Branching.CreateCoordinatedBranches | packages/tree-engine/src/branching/mod.rs:206-337 | the in-place branch point leaves exactly what `CreateBranches` computes |
| Branching.GrowBranchChildren | packages/tree-engine/src/branching/mod.rs:312-336 | the in-place recursion into both children leaves exactly what `GrowChildren` computes |
| Branching.AppendBranchPoint | packages/tree-engine/src/branching/mod.rs:218-309 | the in-place draws, split and two appends give exactly `BranchStart`, at indices `len` and `len+1` |
| Branching.DrawBranchDirection | packages/tree-engine/src/branching/mod.rs:218-240 | the in-place direction draws give exactly `BranchDirection` |
| BranchingFacts.GrowUnchangedIffStops | packages/tree-engine/src/branching/mod.rs:59-100 | the walk leaves the state unchanged if and only if a hard stop holds (both directions) |
| BranchingFacts.AfterBranchContinues | packages/tree-engine/src/branching/mod.rs:124-336 | the first step after a branch point never branches again |
| BranchingFacts.GrowKeepsTree | packages/tree-engine/src/branching/mod.rs:186-309 | the recursive walk keeps the arena a tree |
| BranchingFacts.GrowStepKeepsTree | packages/tree-engine/src/branching/mod.rs:145-202 | one step keeps the arena a tree |
| BranchingFacts.BranchesKeepTree | packages/tree-engine/src/branching/mod.rs:302-336 | a branch point keeps the arena a tree |
| BranchingFacts.ContinuationNarrows | packages/tree-engine/src/branching/mod.rs:146-175 | for `radius_taper` in [0, 1], no continuation ring is wider than its parent ring |
| BranchingFacts.SplitNarrows | packages/tree-engine/src/branching/mod.rs:243-282 | for `radius_taper` in [0, 1], both halves of a split stay within the parent's width bound |
| BranchingFacts.GrowWithin | packages/tree-engine/src/branching/mod.rs:47-204 | every ring the walk appends is within the width bound of the entry it starts from |
| BranchingFacts.GrowStepWithin | packages/tree-engine/src/branching/mod.rs:102-202 | the same for one step |
| BranchingFacts.ContinueWithin | packages/tree-engine/src/branching/mod.rs:145-202 | the same for a continuation |
| BranchingFacts.BranchesWithin | packages/tree-engine/src/branching/mod.rs:206-337 | the same for a branch point |
| BranchingFacts.ChildrenWithin | packages/tree-engine/src/branching/mod.rs:312-336 | the same for the two subtrees of a branch point |
| BranchingFacts.BranchesFacts | packages/tree-engine/src/branching/mod.rs:22-45 | from the base: still a tree, earlier entries unchanged except the base's new children, every appended depth below `max_depth`, no appended ring wider than the widest base ring |
| Roots.RootRings | packages/tree-engine/src/roots/mod.rs:36-43 | root rings copy the base offsets in count and order, with radius times `1 - 0.1k`, typed MainTrunk |
| Roots.RootsUpTo | packages/tree-engine/src/roots/mod.rs:31-61 | after k segments the arena has grown by exactly k entries |
| Roots.GenerateRoots | packages/tree-engine/src/roots/mod.rs:18-62 | the in-place loop leaves exactly the arena `RootsStage` computes |
| Roots.RootsUpToShape | packages/tree-engine/src/roots/mod.rs:31-61 | earlier entries are unchanged except that the base gains the first segment; segment j is `RootSection` j, whose only child is segment j+1 |
| Roots.RootsUpToKeepsTree | packages/tree-engine/src/roots/mod.rs:54-60 | appending the root chain keeps the arena a tree |
| Roots.RootsStageFacts | packages/tree-engine/src/roots/mod.rs:18-62 | disabled, nothing changes; enabled, exactly three chained segments below the base are appended, each one `(k+1) * segment_length` down, and the arena stays a tree |
| TwigPlacement.TwigCount | packages/tree-engine/src/twigs/placement.rs:25-26 | the twig count is the truncated draw clamped to [1, 12] |
| TwigPlacement.TwigTypeBands | packages/tree-engine/src/twigs/placement.rs:54-60 | the twig type is LeafCluster, BranchTip or SmallBranch exactly on the radius bands below 0.02, [0.02, 0.04) and from 0.04 |
| TwigPlacement.Azimuth | packages/tree-engine/src/twigs/placement.rs:30-34 | a lone twig's azimuth lies in [0, 2pi); otherwise it lies within 0.5 of the even spacing `i/count * 2pi` |
| TwigPlacement.Variation | packages/tree-engine/src/twigs/placement.rs:42 | the tilt variation is never farther from 0 than the angle variation |
| TwigPlacement.TiltRange | packages/tree-engine/src/twigs/placement.rs:42-43 | the tilt lies within `45 deg +- angle_variation * 30 deg` |
| TwigPlacement.TwigAt | packages/tree-engine/src/twigs/placement.rs:28-68 | every placed twig has the type its branch radius selects and a scale in [scale_min, scale_max] |
| TwigPlacement.TwigsUpTo | packages/tree-engine/src/twigs/placement.rs:28-71 | the first k twigs of a placement are k twigs |
| TwigPlacement.TwigsUpToStep | packages/tree-engine/src/twigs/placement.rs:28-71 | each next twig takes its three draws three words after the one before |
| TwigPlacement.PlacedTwigsFacts | packages/tree-engine/src/twigs/placement.rs:24-70 | the count draw lies in [d, 3d]; between 1 and 12 twigs are placed, as many as the clamped truncation of that draw; all share the radius's type and have scales in range |
| TwigPlacement.GenerateTwigsAtPosition | packages/tree-engine/src/twigs/placement.rs:12-72 | appends exactly `PlacedTwigs` to the twig list (earlier twigs kept) and advances the generator by `1 + 3 * count` |
| TwigPlacement.AppendTwigs | packages/tree-engine/src/twigs/placement.rs:28-71 | the loop appends exactly the `count` twigs of `TwigsUpTo`, three draws each |
| TwigPlacement.DrawTwig | packages/tree-engine/src/twigs/placement.rs:28-68 | the twig made from the next three draws is the next element of `TwigsUpTo` |
| TwigPlacement.DrawTwigValues | packages/tree-engine/src/twigs/placement.rs:30-51 | draws azimuth, variation and scale in that order, one word each |
| Twigs.ExtendsTrans | packages/tree-engine/src/twigs/mod.rs:50-86 | twig-list extensions over consecutive ring scans compose |
| Twigs.RingStepExtends | packages/tree-engine/src/twigs/mod.rs:52-84 | a root ring or one wider than twice the threshold changes nothing; a gated ring takes one gate draw and appends at most one placement |
| Twigs.AttachExtends | packages/tree-engine/src/twigs/mod.rs:67-84 | a passed gate appends one placement read after the gate draw; a failed one only consumes the draw |
| Twigs.RingsFromExtends | packages/tree-engine/src/twigs/mod.rs:51-85 | the rings of one section extend the twig list by their gated count |
| Twigs.SectionsFromExtends | packages/tree-engine/src/twigs/mod.rs:50-86 | all cross-sections extend the twig list by their gated count |
| Twigs.TwigStageFacts | packages/tree-engine/src/twigs/mod.rs:26-87 | disabled, neither twigs nor generator change; enabled, twigs are rebuilt from empty with scales in [0.5s, 1.5s], at most 12 per gated ring, and the generator moves by one draw per gated ring, one per passed gate and three per twig |
| Twigs.GenerateTwigs | packages/tree-engine/src/twigs/mod.rs:26-87 | the in-place stage leaves exactly the twig list and stream position `TwigStage` computes; cross-sections are only read |
| Twigs.GateRing | packages/tree-engine/src/twigs/mod.rs:52-84 | one ring's gate leaves exactly what `RingStep` computes (short-circuit draws included) |
| Generator.AfterBranching | packages/tree-engine/src/core/generator.rs:30-39 | after the trunk and branching stages the arena is never empty |
| Generator.GenerateTree | packages/tree-engine/src/core/generator.rs:25-48 | a fresh tree and one generator seeded from `general.seed` run trunk, branching, roots and twigs in that order, giving exactly `Pass` of the parameters, so the result depends only on them |
| Generator.GrownFromBase | packages/tree-engine/src/core/generator.rs:30-39 | after branching the arena is a tree whose entry 0 is the trunk base with children added, and every other entry lies below `max_depth` |
| Generator.RootsKeepShape | packages/tree-engine/src/core/generator.rs:42 | the root stage keeps those facts, with root segments at depth 0 |
| Generator.ArenaShape | packages/tree-engine/src/core/generator.rs:25-48 | every generated arena is a non-empty tree whose entry 0 is the trunk base at the origin |
| Generator.ArenaRoots | packages/tree-engine/src/core/generator.rs:42-45 | with roots enabled the arena ends in the three-segment root chain under the base; disabled, it is exactly what branching grew |
| Generator.RootChain | packages/tree-engine/src/roots/mod.rs:31-61 | the root stage on an arena centred at the origin yields the root chain |
| Generator.PassTwigs | packages/tree-engine/src/core/generator.rs:45 | the generated twigs are none when disabled; otherwise at most 12 per gated ring, with scales in [0.5s, 1.5s] |
| Sampling.SingleRingGeometry | tree-rs/src/tree_structure.rs:478-508 | exactly `resolution` samples, sample i on the ring's circle at angle `i/resolution * 2pi` |
| Sampling.ReachUpToIsMax | tree-rs/src/tree_structure.rs:522-541 | the running maximum is at least 0, at least every reach seen, and 0 or one of them |
| Sampling.SampleDistance | tree-rs/src/tree_structure.rs:522-544 | each multi-ring distance is at least 0.1 and at least every ring's reach, and it is 0.1 or one of those reaches |
| Sampling.MultiRingGeometry | tree-rs/src/tree_structure.rs:510-567 | exactly `resolution` samples, each along its direction at the sample distance |
| Sampling.UnifiedGeometry | tree-rs/src/tree_structure.rs:450-476 | no points without rings, otherwise exactly `resolution` points, normals and tangents |
| Sampling.GenerateSingleRingGeometry | tree-rs/src/tree_structure.rs:478-508 | the sampling loop builds exactly `SingleRingGeometry` |
| Sampling.MaxReach | tree-rs/src/tree_structure.rs:522-544 | the inner loop computes exactly `SampleDistance` |
| Sampling.MultiRingSample | tree-rs/src/tree_structure.rs:517-558 | one pass of the outer loop gives exactly sample i |
| Sampling.GenerateMultiRingGeometry | tree-rs/src/tree_structure.rs:510-567 | the outer loop builds exactly `MultiRingGeometry` |
| Sampling.GenerateUnifiedGeometry | tree-rs/src/tree_structure.rs:450-476 | the dispatch on the ring count gives exactly `UnifiedGeometry` |
| Mesh.BandVertices | tree-rs/src/tree_structure.rs:262-267 | k pairs give 2k vertices |
| Mesh.BandNormals | tree-rs/src/tree_structure.rs:270-287 | k pairs give 2k normals |
| Mesh.BandUvs | tree-rs/src/tree_structure.rs:290-294 | k pairs give 2k texture coordinates |
| Mesh.BandDepths | tree-rs/src/tree_structure.rs:265-266 | k pairs give 2k depth tags |
| Mesh.BandIndices | tree-rs/src/tree_structure.rs:297-308 | k quads give 6k indices |
| Mesh.BandVerticesAt | tree-rs/src/tree_structure.rs:262-264 | vertex j is parent point j/2 when j is even and child point j/2 when odd |
| Mesh.BandDepthsAt | tree-rs/src/tree_structure.rs:265-266 | vertex j carries the parent depth when even and the child depth when odd |
| Mesh.BandUvsAt | tree-rs/src/tree_structure.rs:290-294 | vertex j has `u = (j/2)/n` in [0,1) and v 0 on the parent side, 1 on the child side |
| Mesh.BandIndicesWithin | tree-rs/src/tree_structure.rs:297-308 | every index of a band lies in [base, base + 2n) |
| Mesh.BandFacts | tree-rs/src/tree_structure.rs:258-308 | one connection of `n = min` pairs appends 2n vertices, normals, uvs and depths and 6n indices in [base, base+2n), alternating parent and child with their depths and v coordinates |
| Mesh.ConnectionKeepsWellFormed | tree-rs/src/tree_structure.rs:246-309 | a connection keeps the buffers well formed, adds 2n vertices and keeps the old contents as a prefix |
| Mesh.MeshBuffers.constructor | tree-rs/src/tree_structure.rs:154-158 | the buffers start empty |
| Mesh.MeshBuffers.ConnectWithDepth | tree-rs/src/tree_structure.rs:246-309 | the four push loops append exactly one `Connection` band |
| Mesh.MeshBuffers.Connect | tree-rs/src/tree_structure.rs:186-244 | the variant without depths appends the same band and leaves the depth buffer alone |
| Mesh.MeshBuffers.AppendNormals | tree-rs/src/tree_structure.rs:270-287 | the normal pass appends exactly the band's normals, two per pair |
| Mesh.MeshBuffers.AppendUvs | tree-rs/src/tree_structure.rs:290-294 | the texture pass appends exactly the band's coordinates |
| Mesh.MeshBuffers.AppendQuads | tree-rs/src/tree_structure.rs:297-308 | the index pass appends exactly two triangles per quad |
| Mesh.ChildEdges | tree-rs/src/tree_structure.rs:168 | the links of entry i are its children, in order |
| Mesh.EdgesBeforeIn | tree-rs/src/tree_structure.rs:167-181 | with links in range, every visited link names two entries |
| Mesh.ChildEdgesIn | tree-rs/src/tree_structure.rs:168 | the first k links of an entry are in range |
| Mesh.EdgesInAppend | tree-rs/src/tree_structure.rs:167-181 | links in range stay in range when concatenated |
| Mesh.EdgesUpToIn | tree-rs/src/tree_structure.rs:167-181 | the links visited so far are in range |
| Mesh.Geometries | tree-rs/src/tree_structure.rs:161-164 | one unified outline per entry, in order |
| Mesh.MeshOverWellFormed | tree-rs/src/tree_structure.rs:167-181 | any sequence of connections from empty leaves the buffers well formed |
| Mesh.MeshOfWellFormed | tree-rs/src/tree_structure.rs:153-184 | the mesh of an arena has equal per-vertex buffers, three indices per vertex, and every index below the vertex count |
| Mesh.MeshOverNext | tree-rs/src/tree_structure.rs:168-180 | one more link is one more connection on the buffers |
| Mesh.EdgesUpToAll | tree-rs/src/tree_structure.rs:167-181 | all links of entry i bring the visit to entry i+1 |
| Mesh.GenerateMesh | tree-rs/src/tree_structure.rs:153-184 | the in-place stitcher returns exactly `MeshOf`, one band per link in arena order, and it is well formed |
| Mesh.ConnectChildren | tree-rs/src/tree_structure.rs:168-180 | the inner loop connects entry i to each child in order |
| Mesh.SampleAll | tree-rs/src/tree_structure.rs:161-164 | the sampling pass gives exactly `Geometries` |
| Mesh.ProgressBounds | tree-rs/src/tree_structure.rs:408-409 | progress lies in [0, 1], is 0 at the first point and 1 exactly at the last |
| Mesh.MarchStep | tree-rs/src/tree_structure.rs:401-441 | one loop pass keeps the cursors in range, strictly advances them, and emits whole triangles over the `parent_count + child_count` vertices |
| Mesh.Marching | tree-rs/src/tree_structure.rs:388-442 | the march terminates and appends whole triangles with every index in [base, base+parent_count+child_count) |
| Mesh.TriangulateBetweenSegments | tree-rs/src/tree_structure.rs:388-442 | the in-place `while` loop appends exactly `Marching` from cursors (0, 0) |
| Mesh.MarchingUnfold | tree-rs/src/tree_structure.rs:401-441 | one unfolding of the march |
| Mesh.MarchOnce | tree-rs/src/tree_structure.rs:402-440 | one in-place pass gives exactly `MarchStep` |
| Mesh.MarchingLeavesGap | tree-rs/src/tree_structure.rs:401-441 | as written, 3 parent points and 2 child points give `[0,1,3,1,4,3]`, and vertex 2 is in no triangle |
| Mesh.CoveringMarch | tree-rs/src/tree_structure.rs:401-425 | the corrected march emits one triangle per advance, `3 * (remaining steps)` indices, all in range |
| Mesh.CoveringMarchCoversAll | tree-rs/src/tree_structure.rs:395-396 | in the corrected march every remaining point of both runs is a corner of some triangle |
| Mesh.AngleSpan | tree-rs/src/tree_structure.rs:324-328 | the span lies in (0, 2pi] and ends at the end angle, a turn later when it is not past the start |
| Mesh.SegmentPoints | tree-rs/src/tree_structure.rs:330-331 | at least three points per segment |
| Mesh.AngleIndex | tree-rs/src/tree_structure.rs:337 | every index is below `resolution` |
| Mesh.AngleIndices | tree-rs/src/tree_structure.rs:311-342 | at least three indices, each below `resolution` |
| Mesh.AngleIndicesEnds | tree-rs/src/tree_structure.rs:320-339 | the indices run from the start angle's point to the end angle's point, and there are at most `max(resolution, 3)` |
| Mesh.SegmentPointsAtMost | tree-rs/src/tree_structure.rs:330-331 | a span of at most a turn gives at most `max(resolution, 3)` points |
| Mesh.AngleRangeToIndices | tree-rs/src/tree_structure.rs:311-342 | the push loop returns exactly `AngleIndices` |
| TreeHost.ClampRange | packages/tree-engine/src/lib.rs:273-345 | a clamp lands in [lo, hi] and leaves a value already there unchanged (both directions) |
| TreeHost.ClampNatRange | packages/tree-engine/src/lib.rs:318-321 | the same for the unsigned clamp |
| TreeHost.OrderedPair | packages/tree-engine/src/lib.rs:247-257 | the stored pair is ordered, is the same multiset as the input, and is the input exactly when that was ordered |
| TreeHost.FrequencyRangeValid | packages/tree-engine/src/lib.rs:259-264 | always `1 <= min <= max`; max is the request raised to 1; a valid request is kept, and a minimum above the maximum collapses onto it |
| TreeHost.DefaultsNormalised | packages/tree-engine/src/lib.rs:68-116 | the constructor's defaults are in every setter's range, drawable, with split height at 60% of the trunk height |
| TreeHost.NormalisedDrawable | packages/tree-engine/src/lib.rs:334-342 | parameters in the setters' ranges never ask for an empty twig draw |
| TreeHost.Flat3 | packages/tree-engine/src/lib.rs:196-209 | three floats per vector |
| TreeHost.Flat2 | packages/tree-engine/src/lib.rs:212-216 | two floats per vector |
| TreeHost.Flat3At | packages/tree-engine/src/lib.rs:196-209 | float j is coordinate j%3 of vector j/3 |
| TreeHost.Flat2At | packages/tree-engine/src/lib.rs:212-216 | float j is coordinate j%2 of vector j/2 |
| TreeHost.FlattenLayout | packages/tree-engine/src/lib.rs:192-225 | a well-formed mesh flattens to 3n vertex and normal floats, 2n uv floats, n depths and 3n indices below n, coordinates in order |
| TreeHost.FlattenVec3 | packages/tree-engine/src/lib.rs:196-209 | the push loop gives exactly `Flat3` |
| TreeHost.FlattenVec2 | packages/tree-engine/src/lib.rs:212-216 | the push loop gives exactly `Flat2` |
| TreeHost.TwigTypeNamesDistinct | packages/tree-engine/src/lib.rs:182-190 | two twig types get the same name exactly when they are equal |
| TreeHost.TreeLinksInRange | tree-rs/src/tree_structure.rs:167-173 | a tree arena has every child link in range, so it can be stitched |
| TreeHost.TreeObject.constructor | packages/tree-engine/src/lib.rs:65-126 | the object holds the defaults and the tree they generate |
| TreeHost.TreeObject.Regenerate | packages/tree-engine/src/lib.rs:128-130 | the tree becomes the pass over the unchanged parameters |
| TreeHost.TreeObject.SetTrunkHeight | packages/tree-engine/src/lib.rs:227-230 | stores the height unclamped, changes nothing else, and regenerates |
| TreeHost.TreeObject.SetButtressing | packages/tree-engine/src/lib.rs:232-235 | stores the buttressing unclamped and regenerates |
| TreeHost.TreeObject.SetSplitHeight | packages/tree-engine/src/lib.rs:237-240 | stores the split height unclamped and regenerates |
| TreeHost.TreeObject.SetSegmentLength | packages/tree-engine/src/lib.rs:242-245 | stores `max(segment_length, 0.01)` and regenerates |
| TreeHost.TreeObject.SetBranchAngleRange | packages/tree-engine/src/lib.rs:247-251 | stores the ordered pair and regenerates |
| TreeHost.TreeObject.SetBendAngleRange | packages/tree-engine/src/lib.rs:253-257 | stores the ordered pair and regenerates |
| TreeHost.TreeObject.SetBranchFrequencyRange | packages/tree-engine/src/lib.rs:259-265 | stores the validated range and regenerates |
| TreeHost.TreeObject.SetMaxDepth | packages/tree-engine/src/lib.rs:267-270 | stores `max(max_depth, 1)` and regenerates |
| TreeHost.TreeObject.SetRadiusTaper | packages/tree-engine/src/lib.rs:272-275 | stores the taper clamped to [0.1, 1] and regenerates |
| TreeHost.TreeObject.SetTrunkRingSpread | packages/tree-engine/src/lib.rs:277-280 | stores the spread clamped to [0, 2] and regenerates |
| TreeHost.TreeObject.SetSegmentLengthVariation | packages/tree-engine/src/lib.rs:282-285 | stores the variation clamped to [0, 1] and regenerates |
| TreeHost.TreeObject.SetTrunkSize | packages/tree-engine/src/lib.rs:287-290 | stores the size clamped to [0.1, 10] and regenerates |
| TreeHost.TreeObject.SetBranchAzimuthVariation | packages/tree-engine/src/lib.rs:292-295 | stores the variation clamped to [0, 1] and regenerates |
| TreeHost.TreeObject.SetMaxBranchReach | packages/tree-engine/src/lib.rs:297-300 | stores the reach clamped to [2, 50] and regenerates |
| TreeHost.TreeObject.SetRootEnable | packages/tree-engine/src/lib.rs:303-306 | stores the flag and regenerates |
| TreeHost.TreeObject.SetRootDepth | packages/tree-engine/src/lib.rs:308-311 | stores the depth clamped to [0.5, 3] and regenerates |
| TreeHost.TreeObject.SetRootSpread | packages/tree-engine/src/lib.rs:313-316 | stores the spread clamped to [0.5, 2] and regenerates |
| TreeHost.TreeObject.SetRootDensity | packages/tree-engine/src/lib.rs:318-321 | stores the density clamped to [2, 8] and regenerates |
| TreeHost.TreeObject.SetRootSegmentLength | packages/tree-engine/src/lib.rs:323-326 | stores the length clamped to [0.1, 0.8] and regenerates |
| TreeHost.TreeObject.SetTwigEnable | packages/tree-engine/src/lib.rs:329-332 | stores the flag and regenerates |
| TreeHost.TreeObject.SetTwigDensity | packages/tree-engine/src/lib.rs:334-337 | stores the density clamped to [0.1, 2] and regenerates |
| TreeHost.TreeObject.SetTwigScale | packages/tree-engine/src/lib.rs:339-342 | stores the scale clamped to [0.1, 3] and regenerates |
| TreeHost.TreeObject.SetTwigAngleVariation | packages/tree-engine/src/lib.rs:344-347 | stores the variation clamped to [0, 1] and regenerates |
| TreeHost.TreeObject.RingCenter | packages/tree-engine/src/lib.rs:140-144 | some centre exactly when the index is below the count, and then that section's centre |
| TreeHost.TreeObject.RingRadius | packages/tree-engine/src/lib.rs:146-150 | some radius exactly when the section exists and has a ring, and then its first ring's radius |
| TreeHost.TreeObject.TwigAt | packages/tree-engine/src/lib.rs:156-180 | some twig exactly when the index is below the twig count, and then that twig |
| TreeHost.TreeObject.TwigPosition | packages/tree-engine/src/lib.rs:156-160 | some position exactly when the index is in range, and then that twig's position |
| TreeHost.TreeObject.TwigOrientation | packages/tree-engine/src/lib.rs:162-176 | some component exactly when the index is in range |
| TreeHost.TreeObject.TwigScale | packages/tree-engine/src/lib.rs:178-180 | some scale exactly when the index is in range, and then that twig's scale |
| TreeHost.TreeObject.TwigTypeAt | packages/tree-engine/src/lib.rs:182-190 | some name exactly when the index is in range, and then the name of that twig's type |
| TreeHost.TreeObject.GenerateTreeMesh | packages/tree-engine/src/lib.rs:192-225 | the stitched mesh of the current tree, flattened |
| TreeHost.PassBase | packages/tree-engine/src/core/generator.rs:30 | every generated arena starts with the trunk base at the origin, with at least one ring |
| TreeHost.PassRootTip | packages/tree-engine/src/core/generator.rs:42-45 | with roots enabled the last cross-section is `3 * segment_length` below the origin |
| TreeHost.AccessorsOfValid | packages/tree-engine/src/lib.rs:136-180 | on a valid object: at least one section, the first centred at the origin with a radius, the root tip last when roots are on, no twigs when twigs are off, and every twig scale in [0.5s, 1.5s] |
| TreeHost.TreeMeshOfValid | packages/tree-engine/src/lib.rs:192-225 | the flat mesh of a valid object has 3n vertex and normal floats, 2n uv floats, n depths and 3n indices, each naming a vertex |
| Prototype.NewBranch | tree-rs/src/tree.rs:16-25 | a new branch has the given index, length, radius, direction and parent, and no children |
| Prototype.BelowOrder | tree-rs/src/tree.rs:77-89 | a branch in the subtree of a never has a smaller index than a |
| Prototype.BelowTrans | tree-rs/src/tree.rs:57-91 | the subtree relation is transitive and depths add up |
| Prototype.BelowLinear | tree-rs/src/tree.rs:57-91 | two ancestors of one branch lie on one line of ancestors |
| Prototype.SiblingsDisjoint | tree-rs/src/tree.rs:62-64 | the subtrees of two different children do not meet |
| Prototype.ChildOnPath | tree-rs/src/tree.rs:62-64 | a branch strictly below i lies below one of i's children, one level closer |
| Prototype.LeafBelow | tree-rs/src/tree.rs:66-90 | a childless branch has nothing below it but itself |
| Prototype.AllBelowRoot | tree-rs/src/tree.rs:50-55 | on a rooted vector every branch is in the subtree of branch 0 |
| Prototype.BelowStable | tree-rs/src/tree.rs:77-89 | when growth keeps every old parent link, old subtree membership and depth are unchanged |
| Prototype.LoopDone | tree-rs/src/tree.rs:59-65 | when every child has grown, the whole call on an internal branch has had its effect |
| Prototype.LengthenEffect | tree-rs/src/tree.rs:66-68 | lengthening a short leaf by `0.1 a` is the whole effect of the call and keeps the links |
| Prototype.SplitEffect | tree-rs/src/tree.rs:69-90 | splitting a long leaf is the whole effect of the call: two fresh leaves of length 0 and radius 0.01 under it, links kept |
| Prototype.SplitLinked | tree-rs/src/tree.rs:77-89 | a split keeps index, child and parent links consistent |
| Prototype.Tree.constructor | tree-rs/src/tree.rs:39-48 | one branch: index 0, parent none, length 0.1, radius 0.01, identity direction; root 0; seed and age kept |
| Prototype.Tree.Grow | tree-rs/src/tree.rs:50-55 | adds the amount to age, keeps the invariants, and grows every old branch by the amount decayed by `0.99` per level below the root; new branches are fresh leaves |
| Prototype.Tree.GrowBranch | tree-rs/src/tree.rs:57-91 | widens an internal branch by `0.01 a` and grows its children with `0.99 a`, lengthens a short leaf, or splits a long one; branches outside the subtree stay unchanged |
| Prototype.Tree.GrowChildren | tree-rs/src/tree.rs:59-65 | widens and then grows each original child in list order, with the subtree effect |
| Prototype.Tree.GrowChild | tree-rs/src/tree.rs:63-64 | one pass of the children loop moves the loop state one child on |
| Prototype.Tree.SplitLeaf | tree-rs/src/tree.rs:71-89 | appends the two tilted halves at `len` and `len+1` and lists them, in order, as the branch's new children |
| Prototype.Tree.BranchStart | tree-rs/src/tree.rs:93-99 | a parentless branch starts at the origin |
| Prototype.GrowKeepsRooted | tree-rs/src/tree.rs:50-55 | growth keeps branch 0 the only parentless branch, and every old branch stays below it |
| Prototype.RootStartsAtOrigin | tree-rs/src/tree.rs:93-99 | the root branch starts at the origin |
| Prototype.ChildStartsAtParentEnd | tree-rs/src/tree.rs:93-104 | a non-root branch starts where its parent ends |

## Left out

- The `SmallRng` algorithm and `seed_from_u64` are not modelled. A seed selects an arbitrary word stream, and only the order and ranges of the draws are kept.
- `f32` rounding, overflow to infinity and NaN are not modelled; reals are exact. The one exception is the `as u32`/`as usize` casts: they are modelled as saturating truncation (`TruncU32`).
- Branching.MaxSegmentsAtDepth: the `min_segments_for_height + 10` addition wraps modulo 2^32, which is release-build behaviour; a debug build panics on that overflow instead. The exact cap is stated only when the addition does not wrap.
- Trigonometry, square roots, normalisation, cross-section orientation and micromath or glam quaternion arithmetic are uninterpreted. Geometric correctness is not claimed: face-normal orientation, the exactness of the union-of-circles outline, and twig directions.
- `calculate_child_radius` (tree-rs/src/tree_structure.rs:444-446) is not modelled, because it is unused and needs `powf`.
- `export_gltf`, `render` (an empty TODO), the `TreeMesh` clone getters and the wasm_bindgen glue are foreign serialisation and host plumbing.
- The `Result` wrapper of the constructor and of `generate` is left out; it never fails.
- The stateless `ModularTreeGenerator` object is left out; the pass is a function of the parameters.
- `patterns.rs` is an empty stub. The recursive root engine and the `Root` ring type's generator are not in this code.
- The engine's cross-section has no `parent_index` field, so the parent link lives only in the children lists. `Structure.ParentOf` recovers it.
- Mesh vertex indices are `nat`. The source's `u32` index arithmetic is taken not to wrap.
- `connect_point_segments` (tree-rs/src/tree_structure.rs:344-386) has no caller. Only the marching triangulation it delegates to is modelled; its vertex, normal and uv pushes are not.
- Mesh.TriangulateBetweenSegments: requires at least two points on each side. With a count of 1 the source divides by zero in its progress values, and with 0 it underflows `count - 1`.
- Mesh.AngleRangeToIndices: requires `resolution > 0`. The source takes `% resolution`, which panics on 0.
- Random.RealIn: the same function serves half-open and closed float ranges. A half-open draw never reaches `hi`; for a closed draw the model is slightly stronger than `rand`, which can return `hi`.
- Twigs.GenerateTwigs: requires that the twig scale range can be drawn from (`DrawableRanges`). `gen_range` panics on an empty range, which a negative scale with a positive density would produce.
- TreeHost.TreeObject.Regenerate: requires normalised parameters. Every setter keeps them so, and the constructor's defaults satisfy it.
- TreeHost.TreeObject.TwigOrientation: does not name which quaternion component it returns in its contract. The body selects x, y, z or w by `k`.
- Prototype.Tree.GrowBranch: does not fix which fresh indices each split receives. They follow the depth-first visiting order, and the contract only says that each fresh branch is a new leaf below the grown branch.
- Prototype.Tree.Grow: requires the invariant that the constructor establishes, so the source's empty-vector guard is never exercised. `Valid()` implies a non-empty vector.
- Prototype.Tree.BranchEnd: is modelled, but only through `Prototype.ChildStartsAtParentEnd`. The rotation of `(0, length, 0)` by the direction is uninterpreted.
- The core of the prototype under `tree-rs/src/lib.rs` (its `TreeObject` and its conversion to `Branch` values) is wasm glue and is not part of this model.

## Findings

| source | as written | input that shows it | evidently intended | confidence | as-written member | corrected member |
|---|---|---|---|---|---|---|
| tree-rs/src/tree_structure.rs:401-441 | the guards `if child_i < child_count - 1` and `if parent_i < parent_count - 1` skip a triangle while the cursor still advances, so a point can be left out of every triangle | `parent_count = 3`, `child_count = 2`, base 0: the march emits `[0,1,3, 1,4,3]`, and parent vertex 2 is in no triangle | every point of both segments is a corner of some triangle (one triangle per advance, no skipped emission) | not executed | Mesh.MarchingLeavesGap | Mesh.CoveringMarchCoversAll |

The quad shortcut at lines 428-440 reuses corners computed before the advance. It may leave a point uncovered as well; that is not proved here. The corrected `Mesh.CoveringMarch` drops it.
