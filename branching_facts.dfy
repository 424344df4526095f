/** What the growth engine guarantees about the arena it extends: it keeps the
    arena a tree, it leaves it untouched exactly at a hard stop, it never widens a
    ring when `0 <= radius_taper <= 1`, and the step right after a branch point is
    always a continuation. */
module BranchingFacts {
  import opened Geometry
  import opened Structure
  import opened Parameters
  import opened Random
  import opened Rings
  import opened Branching

  /** A call leaves the arena and the stream as they were exactly when one of the
      hard stops holds; otherwise it draws at least the five values of a step. */
  lemma GrowUnchangedIffStops(cfg: Config, words: nat -> Word, s: GrowState, idx: nat, dir: Vec3,
                              depth: nat, sinceBranch: nat, atDepth: nat)
    requires idx < |s.arena|
    ensures Grow(cfg, words, s, idx, dir, depth, sinceBranch, atDepth) == s <==> Stops(cfg, s.arena[idx], depth, atDepth)
    ensures !Stops(cfg, s.arena[idx], depth, atDepth) ==>
      s.pos + 5 <= Grow(cfg, words, s, idx, dir, depth, sinceBranch, atDepth).pos
  {
    if !Stops(cfg, s.arena[idx], depth, atDepth) {
      var cs := s.arena[idx];
      var st := Advance(cfg, words, s.pos, cs.center, dir, depth);
      var r := GrowStep(cfg, words, s, idx, dir, depth, sinceBranch, atDepth);
      if ShouldBranch(cfg, sinceBranch, st, depth) {
        assert r == CreateBranches(cfg, words, GrowState(s.arena, st.pos), idx, cs.rings, st.nextCenter, st.bent, depth);
      } else {
        var child := ContinuationSection(cfg, cs.rings, st, depth);
        assert r == Grow(cfg, words, GrowState(AppendChild(s.arena, idx, child), st.pos), |s.arena|, st.bent,
                         depth, sinceBranch + 1, atDepth + 1);
      }
      assert s.pos + 5 <= r.pos;
    }
  }

  /** The step after a branch point (`sinceBranch == 0`) never branches: the drawn
      threshold is at least 1. Unless a hard stop holds, it appends exactly one
      continuation under `idx`, at the same depth, with one tapered ring per ring. */
  lemma AfterBranchContinues(cfg: Config, words: nat -> Word, s: GrowState, idx: nat, dir: Vec3,
                             depth: nat, atDepth: nat)
    requires idx < |s.arena| && !Stops(cfg, s.arena[idx], depth, atDepth)
    ensures var cs := s.arena[idx];
      var st := Advance(cfg, words, s.pos, cs.center, dir, depth);
      var r := Grow(cfg, words, s, idx, dir, depth, 0, atDepth).arena;
      && |s.arena| < |r|
      && r[idx].children == cs.children + [|s.arena|]
      && r[|s.arena|].depth == depth
      && r[|s.arena|].center == st.nextCenter
      && r[|s.arena|].rings ==
         ContinuationRings(cfg, cs.rings, ContinuationTaper(cfg, |cs.rings|, st.nextCenter.y), depth, st.nextCenter.y)
  {
    var cs := s.arena[idx];
    var st := Advance(cfg, words, s.pos, cs.center, dir, depth);
    assert !ShouldBranch(cfg, 0, st, depth);
    GrowContinues(cfg, words, s, idx, dir, depth, 0, atDepth);
    var child := ContinuationSection(cfg, cs.rings, st, depth);
    var a1 := AppendChild(s.arena, idx, child);
    GrowFrame(cfg, words, GrowState(a1, st.pos), |s.arena|, st.bent, depth, 1, atDepth + 1);
  }

  /** The engine keeps the arena a tree: links forward and in range, every child
      listed once, every entry but the first reachable from an earlier one. */
  lemma {:induction false} GrowKeepsTree(cfg: Config, words: nat -> Word, s: GrowState, idx: nat, dir: Vec3,
                                         depth: nat, sinceBranch: nat, atDepth: nat)
    requires idx < |s.arena| && IsTree(s.arena)
    ensures IsTree(Grow(cfg, words, s, idx, dir, depth, sinceBranch, atDepth).arena)
    decreases cfg.general.maxDepth - depth, MaxSegmentsAtDepth(cfg.trunk, depth) - atDepth, 1
  {
    if !Stops(cfg, s.arena[idx], depth, atDepth) {
      GrowStepKeepsTree(cfg, words, s, idx, dir, depth, sinceBranch, atDepth);
    }
  }

  lemma {:induction false} GrowStepKeepsTree(cfg: Config, words: nat -> Word, s: GrowState, idx: nat, dir: Vec3,
                                             depth: nat, sinceBranch: nat, atDepth: nat)
    requires idx < |s.arena| && !Stops(cfg, s.arena[idx], depth, atDepth) && IsTree(s.arena)
    ensures IsTree(GrowStep(cfg, words, s, idx, dir, depth, sinceBranch, atDepth).arena)
    decreases cfg.general.maxDepth - depth, MaxSegmentsAtDepth(cfg.trunk, depth) - atDepth, 0
  {
    var cs := s.arena[idx];
    var st := Advance(cfg, words, s.pos, cs.center, dir, depth);
    if ShouldBranch(cfg, sinceBranch, st, depth) {
      BranchesKeepTree(cfg, words, GrowState(s.arena, st.pos), idx, cs.rings, st.nextCenter, st.bent, depth);
    } else {
      var child := ContinuationSection(cfg, cs.rings, st, depth);
      AppendChildKeepsTree(s.arena, idx, child);
      GrowKeepsTree(cfg, words, GrowState(AppendChild(s.arena, idx, child), st.pos), |s.arena|, st.bent,
                    depth, sinceBranch + 1, atDepth + 1);
    }
  }

  lemma {:induction false} BranchesKeepTree(cfg: Config, words: nat -> Word, s: GrowState, parent: nat,
                                            rings: seq<ComponentRing>, center: Vec3, main: Vec3, depth: nat)
    requires parent < |s.arena| && depth + 1 < cfg.general.maxDepth && IsTree(s.arena)
    ensures IsTree(CreateBranches(cfg, words, s, parent, rings, center, main, depth).arena)
    decreases cfg.general.maxDepth - depth, 0, 1
  {
    var (branchDir, pos1) := BranchDirection(cfg, words, s.pos, main);
    var children := BranchChildren(cfg, rings, center, main, branchDir, depth);
    var a0 := AppendChild(s.arena, parent, children.0);
    AppendChildKeepsTree(s.arena, parent, children.0);
    AppendChildKeepsTree(a0, parent, children.1);
    var s1 := GrowState(AppendChild(a0, parent, children.1), pos1);
    assert BranchStart(cfg, words, s, parent, rings, center, main, depth) == s1;
    var r1 := Grow(cfg, words, s1, |s.arena|, main, depth + 1, 0, 0);
    GrowKeepsTree(cfg, words, s1, |s.arena|, main, depth + 1, 0, 0);
    GrowKeepsTree(cfg, words, r1, |s.arena| + 1, branchDir, depth + 1, 0, 0);
  }

  /** Every ring radius lies in `[0, bound]`. */
  ghost predicate RingsWithin(rings: seq<ComponentRing>, bound: real)
  {
    forall i :: 0 <= i < |rings| ==> 0.0 <= rings[i].radius <= bound
  }

  /** Every entry from `lo` on has its rings within `bound`. */
  ghost predicate EntriesWithin(a: seq<CrossSection>, lo: nat, bound: real)
  {
    forall i :: lo <= i < |a| ==> RingsWithin(a[i].rings, bound)
  }

  /** A continuation never widens a ring when `0 <= radius_taper <= 1`. */
  lemma ContinuationNarrows(cfg: Config, rings: seq<ComponentRing>, nextY: real, depth: nat)
    requires 0.0 <= cfg.branching.radiusTaper <= 1.0
    ensures var child := ContinuationRings(cfg, rings, ContinuationTaper(cfg, |rings|, nextY), depth, nextY);
      forall i :: 0 <= i < |rings| && 0.0 <= rings[i].radius ==> 0.0 <= child[i].radius <= rings[i].radius
  {
    var taper := ContinuationTaper(cfg, |rings|, nextY);
    var child := ContinuationRings(cfg, rings, taper, depth, nextY);
    forall i | 0 <= i < |rings| && 0.0 <= rings[i].radius
      ensures 0.0 <= child[i].radius <= rings[i].radius
    {
      assert child[i].radius == ChildRing(rings[i], taper).radius;
    }
  }

  /** A branch point never widens a ring when `0 <= radius_taper <= 1`: the trunk
      rings are scaled by `taper * 0.95`, the branch ring by `taper` or `taper * 0.8`. */
  lemma SplitNarrows(b: BranchingParams, rings: seq<ComponentRing>, bound: real)
    requires 0.0 <= b.radiusTaper <= 1.0 && RingsWithin(rings, bound)
    ensures RingsWithin(SplitRings(rings, BranchTaper(b)).0, bound)
    ensures RingsWithin(SplitRings(rings, BranchTaper(b)).1, bound)
  {
    var taper := BranchTaper(b);
    var split := SplitRings(rings, taper);
    if |rings| > 1 {
      forall i | 0 <= i < |split.0| ensures 0.0 <= split.0[i].radius <= bound {
        assert split.0[i] == ChildRing(rings[i], taper * 0.95);
      }
    }
  }

  /** Starting from an entry whose rings are within `bound`, every entry the engine
      appends has its rings within `bound`. */
  lemma {:induction false} GrowWithin(cfg: Config, words: nat -> Word, s: GrowState, idx: nat, dir: Vec3,
                                      depth: nat, sinceBranch: nat, atDepth: nat, bound: real)
    requires idx < |s.arena| && 0.0 <= cfg.branching.radiusTaper <= 1.0
    requires RingsWithin(s.arena[idx].rings, bound)
    ensures EntriesWithin(Grow(cfg, words, s, idx, dir, depth, sinceBranch, atDepth).arena, |s.arena|, bound)
    decreases cfg.general.maxDepth - depth, MaxSegmentsAtDepth(cfg.trunk, depth) - atDepth, 2
  {
    if !Stops(cfg, s.arena[idx], depth, atDepth) {
      GrowStepWithin(cfg, words, s, idx, dir, depth, sinceBranch, atDepth, bound);
    }
  }

  lemma {:induction false} GrowStepWithin(cfg: Config, words: nat -> Word, s: GrowState, idx: nat, dir: Vec3,
                                          depth: nat, sinceBranch: nat, atDepth: nat, bound: real)
    requires idx < |s.arena| && !Stops(cfg, s.arena[idx], depth, atDepth)
    requires 0.0 <= cfg.branching.radiusTaper <= 1.0 && RingsWithin(s.arena[idx].rings, bound)
    ensures EntriesWithin(GrowStep(cfg, words, s, idx, dir, depth, sinceBranch, atDepth).arena, |s.arena|, bound)
    decreases cfg.general.maxDepth - depth, MaxSegmentsAtDepth(cfg.trunk, depth) - atDepth, 1
  {
    var cs := s.arena[idx];
    var st := Advance(cfg, words, s.pos, cs.center, dir, depth);
    if ShouldBranch(cfg, sinceBranch, st, depth) {
      BranchesWithin(cfg, words, GrowState(s.arena, st.pos), idx, cs.rings, st.nextCenter, st.bent, depth, bound);
    } else {
      var child := ContinuationSection(cfg, cs.rings, st, depth);
      ContinuationNarrows(cfg, cs.rings, st.nextCenter.y, depth);
      assert RingsWithin(child.rings, bound);
      ContinueWithin(cfg, words, s, idx, st, child, depth, sinceBranch, atDepth, bound);
    }
  }

  /** The continuation case of `GrowStepWithin`: the appended entry keeps its rings
      through the rest of the call, and the entries after it are covered by induction. */
  lemma {:induction false} ContinueWithin(cfg: Config, words: nat -> Word, s: GrowState, idx: nat, st: Step,
                                          child: CrossSection, depth: nat, sinceBranch: nat, atDepth: nat, bound: real)
    requires idx < |s.arena| && atDepth < MaxSegmentsAtDepth(cfg.trunk, depth)
    requires 0.0 <= cfg.branching.radiusTaper <= 1.0 && RingsWithin(child.rings, bound)
    ensures var s1 := GrowState(AppendChild(s.arena, idx, child), st.pos);
      EntriesWithin(Grow(cfg, words, s1, |s.arena|, st.bent, depth, sinceBranch + 1, atDepth + 1).arena, |s.arena|, bound)
    decreases cfg.general.maxDepth - depth, MaxSegmentsAtDepth(cfg.trunk, depth) - atDepth, 0
  {
    var s1 := GrowState(AppendChild(s.arena, idx, child), st.pos);
    var r := Grow(cfg, words, s1, |s.arena|, st.bent, depth, sinceBranch + 1, atDepth + 1).arena;
    GrowWithin(cfg, words, s1, |s.arena|, st.bent, depth, sinceBranch + 1, atDepth + 1, bound);
    GrowFrame(cfg, words, s1, |s.arena|, st.bent, depth, sinceBranch + 1, atDepth + 1);
    assert r[|s.arena|].rings == child.rings;
  }

  lemma {:induction false} BranchesWithin(cfg: Config, words: nat -> Word, s: GrowState, parent: nat,
                                          rings: seq<ComponentRing>, center: Vec3, main: Vec3, depth: nat, bound: real)
    requires parent < |s.arena| && depth + 1 < cfg.general.maxDepth
    requires 0.0 <= cfg.branching.radiusTaper <= 1.0 && RingsWithin(rings, bound)
    ensures EntriesWithin(CreateBranches(cfg, words, s, parent, rings, center, main, depth).arena, |s.arena|, bound)
    decreases cfg.general.maxDepth - depth, 0, 1
  {
    var (branchDir, pos1) := BranchDirection(cfg, words, s.pos, main);
    var children := BranchChildren(cfg, rings, center, main, branchDir, depth);
    var s1 := GrowState(AppendChild(AppendChild(s.arena, parent, children.0), parent, children.1), pos1);
    assert BranchStart(cfg, words, s, parent, rings, center, main, depth) == s1;
    SplitNarrows(cfg.branching, rings, bound);
    ChildrenWithin(cfg, words, s1, |s.arena|, |s.arena| + 1, main, branchDir, depth, bound);
  }

  lemma {:induction false} ChildrenWithin(cfg: Config, words: nat -> Word, s: GrowState, trunkIdx: nat, branchIdx: nat,
                                          main: Vec3, branchDir: Vec3, depth: nat, bound: real)
    requires trunkIdx < branchIdx < |s.arena| && depth + 1 < cfg.general.maxDepth
    requires 0.0 <= cfg.branching.radiusTaper <= 1.0
    requires EntriesWithin(s.arena, trunkIdx, bound)
    ensures EntriesWithin(GrowChildren(cfg, words, s, trunkIdx, branchIdx, main, branchDir, depth).arena, trunkIdx, bound)
    decreases cfg.general.maxDepth - depth, 0, 0
  {
    var r1 := Grow(cfg, words, s, trunkIdx, main, depth + 1, 0, 0);
    var r := GrowChildren(cfg, words, s, trunkIdx, branchIdx, main, branchDir, depth);
    GrowWithin(cfg, words, s, trunkIdx, main, depth + 1, 0, 0, bound);
    GrowFrame(cfg, words, s, trunkIdx, main, depth + 1, 0, 0);
    assert EntriesWithin(r1.arena, trunkIdx, bound);
    GrowWithin(cfg, words, r1, branchIdx, branchDir, depth + 1, 0, 0, bound);
    GrowFrame(cfg, words, r1, branchIdx, branchDir, depth + 1, 0, 0);
  }

  /** `generate_branches` from the trunk base: the arena stays a tree, earlier
      entries other than the base are untouched, the base only gains children,
      every appended entry lies below `max_depth`, and with `0 <= radius_taper <= 1`
      no appended ring is wider than the widest base ring. */
  lemma BranchesFacts(cfg: Config, words: nat -> Word, s: GrowState, bound: real)
    requires 0 < |s.arena| && IsTree(s.arena)
    ensures var r := Branches(cfg, words, s).arena;
      && IsTree(r)
      && (forall i :: 0 < i < |s.arena| ==> r[i] == s.arena[i])
      && r[0] == s.arena[0].(children := r[0].children)
      && |s.arena[0].children| <= |r[0].children|
      && r[0].children[..|s.arena[0].children|] == s.arena[0].children
      && (forall i :: |s.arena| <= i < |r| ==> r[i].depth < cfg.general.maxDepth)
    ensures 0.0 <= cfg.branching.radiusTaper <= 1.0 && RingsWithin(s.arena[0].rings, bound) ==>
      EntriesWithin(Branches(cfg, words, s).arena, |s.arena|, bound)
  {
    GrowKeepsTree(cfg, words, s, 0, UnitY, 0, 0, 0);
    GrowFrame(cfg, words, s, 0, UnitY, 0, 0, 0);
    if 0.0 <= cfg.branching.radiusTaper <= 1.0 && RingsWithin(s.arena[0].rings, bound) {
      GrowWithin(cfg, words, s, 0, UnitY, 0, 0, 0, bound);
    }
  }
}
