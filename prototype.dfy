// The early prototype tree of tree-rs (tree-rs/src/tree.rs): a vector of branches
// linked by parent index and child indices, grown recursively from the root.
// Quaternions are micromath's; only their product and their action on a vector
// are used, and both are kept uninterpreted.

module Prototype {
  import opened Geometry
  import opened Structure

  /** A micromath quaternion, by the four arguments of `Quaternion::new` in order. */
  datatype MicroQuat = MicroQuat(a: real, b: real, c: real, d: real)

  /** The quaternion product and the rotation of a vector by a quaternion. */
  datatype QuatOps = QuatOps(mul: (MicroQuat, MicroQuat) -> MicroQuat, rotate: (MicroQuat, Vec3) -> Vec3)

  const RootDirection: MicroQuat := MicroQuat(1.0, 0.0, 0.0, 0.0)
  /** The tilts applied to the two halves of a split. */
  const TiltA: MicroQuat := MicroQuat(1.0, 0.0, 0.0, 0.1)
  const TiltB: MicroQuat := MicroQuat(1.0, 0.0, 0.0, -0.1)

  datatype Branch = Branch(index: nat, length: real, radius: real, direction: MicroQuat,
                           parent: Option<nat>, children: seq<nat>)

  /** `Branch::new`: a branch without children. */
  function NewBranch(index: nat, direction: MicroQuat, length: real, radius: real, parent: Option<nat>): (b: Branch)
    ensures b.children == [] && b.index == index && b.parent == parent
    ensures b.length == length && b.radius == radius && b.direction == direction
  {
    Branch(index, length, radius, direction, parent, [])
  }

  // ----- The shape of the branch vector -----

  /** Every branch knows its own position; child links point forward, are listed in
      increasing order and agree with the parent links. */
  ghost predicate Linked(bs: seq<Branch>)
  {
    && (forall i :: 0 <= i < |bs| ==> bs[i].index == i)
    && (forall i, k :: 0 <= i < |bs| && 0 <= k < |bs[i].children| ==>
          i < bs[i].children[k] < |bs| && bs[bs[i].children[k]].parent == Some(i))
    && (forall i, k1, k2 :: 0 <= i < |bs| && 0 <= k1 < k2 < |bs[i].children| ==>
          bs[i].children[k1] < bs[i].children[k2])
    && (forall j :: 0 <= j < |bs| && bs[j].parent.Some? ==>
          bs[j].parent.value < j && j in bs[bs[j].parent.value].children)
  }

  /** Branch 0 is the only branch without a parent. */
  ghost predicate Rooted(bs: seq<Branch>)
  {
    |bs| > 0 && bs[0].parent == None && (forall j :: 0 < j < |bs| ==> bs[j].parent.Some?)
  }

  /** `x` lies in the subtree of `a`: following parent links from `x` reaches `a`. */
  ghost predicate Below(bs: seq<Branch>, a: nat, x: nat)
    decreases x
  {
    x < |bs| && (x == a || (bs[x].parent.Some? && bs[x].parent.value < x && Below(bs, a, bs[x].parent.value)))
  }

  /** The number of parent links from `x` up to `a`. */
  ghost function Depth(bs: seq<Branch>, a: nat, x: nat): nat
    requires Below(bs, a, x)
    decreases x
  {
    if x == a then 0 else Depth(bs, a, bs[x].parent.value) + 1
  }

  /** How much a branch with children widens when grown by `amount`. */
  function Widening(amount: real): real { amount * 0.01 }

  /** How much a short leaf lengthens when grown by `amount`. */
  function Lengthening(amount: real): real { amount * 0.1 }

  /** The amount passed on to each child. */
  function ChildAmount(amount: real): real { amount * 0.99 }

  /** The growth amount `depth` levels below the branch a call started from. */
  function Decay(amount: real, depth: nat): real
    decreases depth
  {
    if depth == 0 then amount else Decay(ChildAmount(amount), depth - 1)
  }

  lemma {:induction false} BelowOrder(bs: seq<Branch>, a: nat, x: nat)
    requires Below(bs, a, x)
    ensures a <= x < |bs|
    decreases x
  {
    if x != a {
      BelowOrder(bs, a, bs[x].parent.value);
    }
  }

  lemma {:induction false} BelowTrans(bs: seq<Branch>, a: nat, b: nat, x: nat)
    requires Below(bs, a, b) && Below(bs, b, x)
    ensures Below(bs, a, x) && Depth(bs, a, x) == Depth(bs, a, b) + Depth(bs, b, x)
    decreases x
  {
    BelowOrder(bs, a, b);
    BelowOrder(bs, b, x);
    if x != b {
      BelowTrans(bs, a, b, bs[x].parent.value);
    }
  }

  /** Two branches above the same branch lie on one line of ancestors. */
  lemma {:induction false} BelowLinear(bs: seq<Branch>, a: nat, b: nat, x: nat)
    requires Below(bs, a, x) && Below(bs, b, x)
    ensures Below(bs, a, b) || Below(bs, b, a)
    decreases x
  {
    if x != a && x != b {
      BelowLinear(bs, a, b, bs[x].parent.value);
    }
  }

  /** The subtrees of two different children of one branch do not meet. */
  lemma SiblingsDisjoint(bs: seq<Branch>, i: nat, k1: nat, k2: nat, x: nat)
    requires Linked(bs) && i < |bs| && k1 < |bs[i].children| && k2 < |bs[i].children| && k1 != k2
    requires Below(bs, bs[i].children[k1], x)
    ensures !Below(bs, bs[i].children[k2], x)
  {
    var c1, c2 := bs[i].children[k1], bs[i].children[k2];
    assert c1 != c2 by {
      if k1 < k2 { assert c1 < c2; } else { assert c2 < c1; }
    }
    if Below(bs, c2, x) {
      BelowLinear(bs, c1, c2, x);
      if Below(bs, c1, c2) {
        assert Below(bs, c1, i);
        BelowOrder(bs, c1, i);
      } else {
        assert Below(bs, c2, i);
        BelowOrder(bs, c2, i);
      }
    }
  }

  /** A branch strictly below `i` lies below one of `i`'s children, one level closer. */
  lemma {:induction false} ChildOnPath(bs: seq<Branch>, i: nat, x: nat) returns (k: nat)
    requires Linked(bs) && i < |bs| && Below(bs, i, x) && x != i
    ensures k < |bs[i].children| && Below(bs, bs[i].children[k], x)
    ensures Depth(bs, i, x) == Depth(bs, bs[i].children[k], x) + 1
    decreases x
  {
    var p := bs[x].parent.value;
    if p == i {
      k :| 0 <= k < |bs[i].children| && bs[i].children[k] == x;
    } else {
      k := ChildOnPath(bs, i, p);
      BelowOrder(bs, bs[i].children[k], p);
    }
  }

  /** A childless branch has nothing below it but itself. */
  lemma LeafBelow(bs: seq<Branch>, i: nat, x: nat)
    requires Linked(bs) && i < |bs| && bs[i].children == [] && Below(bs, i, x)
    ensures x == i
  {
    if x != i {
      var k := ChildOnPath(bs, i, x);
    }
  }

  /** On a rooted vector every branch lies below branch 0. */
  lemma {:induction false} AllBelowRoot(bs: seq<Branch>, x: nat)
    requires Linked(bs) && Rooted(bs) && x < |bs|
    ensures Below(bs, 0, x)
    decreases x
  {
    if x != 0 {
      AllBelowRoot(bs, bs[x].parent.value);
    }
  }

  /** Growing never changes a parent link of a branch that already existed. */
  ghost predicate Keeps(s: seq<Branch>, t: seq<Branch>)
  {
    |s| <= |t| && forall y :: 0 <= y < |s| ==> t[y].parent == s[y].parent
  }

  lemma {:induction false} BelowStable(s: seq<Branch>, t: seq<Branch>, a: nat, x: nat)
    requires Keeps(s, t) && x < |s|
    ensures Below(s, a, x) == Below(t, a, x)
    ensures Below(s, a, x) ==> Depth(s, a, x) == Depth(t, a, x)
    decreases x
  {
    if x != a && s[x].parent.Some? && s[x].parent.value < x {
      BelowStable(s, t, a, s[x].parent.value);
    }
  }

  // ----- What one call of grow_branch does -----

  /** A fresh half of a split: still of length 0 and radius 0.01, with no children. */
  ghost predicate NewLeaf(t: seq<Branch>, j: nat)
  {
    j < |t| && t[j].children == [] && t[j].length == 0.0 && t[j].radius == 0.01 && t[j].parent.Some?
  }

  /** Branch `x` of `s` split into the two fresh branches it now lists as children. */
  ghost predicate SplitInto(s: seq<Branch>, t: seq<Branch>, x: nat, ops: QuatOps)
  {
    x < |s| && x < |t| && |t[x].children| == 2 &&
    var n := t[x].children[0];
    && t[x] == s[x].(children := [n, n + 1])
    && |s| <= n && n + 1 < |t|
    && t[n] == NewBranch(n, ops.mul(s[x].direction, TiltA), 0.0, 0.01, Some(x))
    && t[n + 1] == NewBranch(n + 1, ops.mul(s[x].direction, TiltB), 0.0, 0.01, Some(x))
  }

  /** Branch `x` grew by `amount`: a branch with children widens, a short leaf
      lengthens, a long leaf splits in two. */
  ghost predicate GrownAt(s: seq<Branch>, t: seq<Branch>, x: nat, amount: real, ops: QuatOps)
  {
    x < |s| && x < |t| &&
    if |s[x].children| > 0 then t[x] == s[x].(radius := s[x].radius + Widening(amount))
    else if s[x].length < 0.5 then t[x] == s[x].(length := s[x].length + Lengthening(amount))
    else SplitInto(s, t, x, ops)
  }

  /** Growing from branch `r` by `amount` turns `s` into `t`: every branch below `r`
      grows by the amount decayed by its depth, every other branch is as it was, and
      the appended branches are fresh halves of splits below `r`. */
  ghost predicate Effect(s: seq<Branch>, t: seq<Branch>, r: nat, amount: real, ops: QuatOps)
  {
    && Keeps(s, t)
    && (forall x :: 0 <= x < |s| && !Below(s, r, x) ==> t[x] == s[x])
    && (forall x: nat :: Below(s, r, x) ==> GrownAt(s, t, x, Decay(amount, Depth(s, r, x)), ops))
    && (forall j :: |s| <= j < |t| ==> NewLeaf(t, j) && Below(s, r, t[j].parent.value))
  }

  /** The state of the loop over the children of `i` after `k` of them have grown. */
  ghost predicate LoopState(s: seq<Branch>, t: seq<Branch>, i: nat, k: nat, amount: real, ops: QuatOps)
  {
    i < |s| && k <= |s[i].children| && Keeps(s, t) &&
    var ch := s[i].children;
    && t[i] == s[i].(radius := s[i].radius + Widening(amount))
    && (forall x :: 0 <= x < |s| && !Below(s, i, x) ==> t[x] == s[x])
    && (forall m, x: nat :: 0 <= m < k && Below(s, ch[m], x) ==>
          GrownAt(s, t, x, Decay(ChildAmount(amount), Depth(s, ch[m], x)), ops))
    && (forall m, x: nat :: k <= m < |ch| && Below(s, ch[m], x) ==> t[x] == s[x])
    && (forall j :: |s| <= j < |t| ==>
          && NewLeaf(t, j) && Below(s, i, t[j].parent.value)
          && forall m :: k <= m < |ch| ==> !Below(s, ch[m], t[j].parent.value))
  }

  lemma LoopStart(s: seq<Branch>, t: seq<Branch>, i: nat, amount: real, ops: QuatOps)
    requires Linked(s) && i < |s| && |s[i].children| > 0
    requires t == s[i := s[i].(radius := s[i].radius + Widening(amount))]
    ensures LoopState(s, t, i, 0, amount, ops)
  {
    var ch := s[i].children;
    forall m, x: nat | 0 <= m < |ch| && Below(s, ch[m], x)
      ensures t[x] == s[x]
    {
      BelowOrder(s, ch[m], x);
    }
  }

  /** Before growing child `k`, its whole subtree lies under the bound. */
  lemma CallPre(s: seq<Branch>, t: seq<Branch>, i: nat, k: nat, amount: real, ops: QuatOps, bound: nat)
    requires Linked(s) && LoopState(s, t, i, k, amount, ops) && k < |s[i].children|
    requires forall x: nat :: Below(s, i, x) ==> x < bound
    ensures i < s[i].children[k] < bound
    ensures forall x: nat :: Below(t, s[i].children[k], x) ==> x < bound
  {
    var c := s[i].children[k];
    assert Below(s, i, c);
    forall x: nat | Below(t, c, x)
      ensures x < bound
    {
      BelowOrder(t, c, x);
      if x < |s| {
        BelowStable(s, t, c, x);
        BelowTrans(s, i, c, x);
      } else {
        var p := t[x].parent.value;
        assert !Below(s, c, p);
        BelowOrder(s, i, p);
        BelowStable(s, t, c, p);
      }
    }
  }

  /** After growing child `k` from state `t` to `u`, the loop state holds for `k + 1`. */
  lemma LoopStep(s: seq<Branch>, t: seq<Branch>, u: seq<Branch>, i: nat, k: nat, amount: real, ops: QuatOps)
    requires Linked(s) && LoopState(s, t, i, k, amount, ops) && k < |s[i].children|
    requires Effect(t, u, s[i].children[k], ChildAmount(amount), ops)
    ensures LoopState(s, u, i, k + 1, amount, ops)
  {
    assert Keeps(s, u);
    OutsideStay(s, t, u, i, k, amount, ops);
    ProcessedStay(s, t, u, i, k, amount, ops);
    CurrentGrown(s, t, u, i, k, amount, ops);
    LaterStay(s, t, u, i, k, amount, ops);
    FreshStay(s, t, u, i, k, amount, ops);
  }

  /** Branch `i` itself and everything outside its subtree are untouched by growing child `k`. */
  lemma OutsideStay(s: seq<Branch>, t: seq<Branch>, u: seq<Branch>, i: nat, k: nat, amount: real, ops: QuatOps)
    requires Linked(s) && LoopState(s, t, i, k, amount, ops) && k < |s[i].children|
    requires Effect(t, u, s[i].children[k], ChildAmount(amount), ops)
    ensures u[i] == t[i]
    ensures forall x :: 0 <= x < |s| && !Below(s, i, x) ==> u[x] == s[x]
  {
    var c := s[i].children[k];
    assert Below(s, i, c);
    assert !Below(t, c, i) by { if Below(t, c, i) { BelowOrder(t, c, i); } }
    forall x | 0 <= x < |s| && !Below(s, i, x)
      ensures u[x] == s[x]
    {
      BelowStable(s, t, c, x);
      if Below(s, c, x) { BelowTrans(s, i, c, x); }
    }
  }

  /** The subtrees of the children still to grow are untouched by growing child `k`. */
  lemma LaterStay(s: seq<Branch>, t: seq<Branch>, u: seq<Branch>, i: nat, k: nat, amount: real, ops: QuatOps)
    requires Linked(s) && LoopState(s, t, i, k, amount, ops) && k < |s[i].children|
    requires Effect(t, u, s[i].children[k], ChildAmount(amount), ops)
    ensures forall m, x: nat :: k + 1 <= m < |s[i].children| && Below(s, s[i].children[m], x) ==> u[x] == s[x]
  {
    var ch := s[i].children;
    var c := ch[k];
    forall m, x: nat | k + 1 <= m < |ch| && Below(s, ch[m], x)
      ensures u[x] == s[x]
    {
      SiblingsDisjoint(s, i, m, k, x);
      BelowOrder(s, ch[m], x);
      BelowStable(s, t, c, x);
    }
  }

  /** The subtrees of the children grown earlier are untouched by growing child `k`. */
  lemma ProcessedStay(s: seq<Branch>, t: seq<Branch>, u: seq<Branch>, i: nat, k: nat, amount: real, ops: QuatOps)
    requires Linked(s) && LoopState(s, t, i, k, amount, ops) && k < |s[i].children|
    requires Effect(t, u, s[i].children[k], ChildAmount(amount), ops)
    ensures forall m, x: nat :: 0 <= m < k && Below(s, s[i].children[m], x) ==>
          GrownAt(s, u, x, Decay(ChildAmount(amount), Depth(s, s[i].children[m], x)), ops)
  {
    var ch := s[i].children;
    var c := ch[k];
    forall m, x: nat | 0 <= m < k && Below(s, ch[m], x)
      ensures GrownAt(s, u, x, Decay(ChildAmount(amount), Depth(s, ch[m], x)), ops)
    {
      ProcessedOne(s, t, u, i, k, m, x, Decay(ChildAmount(amount), Depth(s, ch[m], x)), ops);
    }
  }

  lemma ProcessedOne(s: seq<Branch>, t: seq<Branch>, u: seq<Branch>, i: nat, k: nat, m: nat, x: nat, d: real, ops: QuatOps)
    requires Linked(s) && i < |s| && m < k < |s[i].children| && Below(s, s[i].children[m], x)
    requires Keeps(s, t) && GrownAt(s, t, x, d, ops)
    requires |t| <= |u|
    requires forall y :: 0 <= y < |t| && !Below(t, s[i].children[k], y) ==> u[y] == t[y]
    ensures GrownAt(s, u, x, d, ops)
  {
    var c := s[i].children[k];
    SiblingsDisjoint(s, i, m, k, x);
    BelowOrder(s, s[i].children[m], x);
    BelowStable(s, t, c, x);
    if |s[x].children| == 0 && !(s[x].length < 0.5) {
      var n := t[x].children[0];
      OffSubtree(s, t, c, x, n);
      OffSubtree(s, t, c, x, n + 1);
    }
  }

  /** A branch hanging from `x` is outside the subtree of `c` when `x` is. */
  lemma OffSubtree(s: seq<Branch>, t: seq<Branch>, c: nat, x: nat, y: nat)
    requires Keeps(s, t) && x < |s| && c < |s| && |s| <= y < |t| && t[y].parent == Some(x)
    requires !Below(s, c, x)
    ensures !Below(t, c, y)
  {
    BelowStable(s, t, c, x);
  }

  /** The subtree of child `k` has grown as its own call promised. */
  lemma CurrentGrown(s: seq<Branch>, t: seq<Branch>, u: seq<Branch>, i: nat, k: nat, amount: real, ops: QuatOps)
    requires Linked(s) && LoopState(s, t, i, k, amount, ops) && k < |s[i].children|
    requires Effect(t, u, s[i].children[k], ChildAmount(amount), ops)
    ensures forall x: nat :: Below(s, s[i].children[k], x) ==>
          GrownAt(s, u, x, Decay(ChildAmount(amount), Depth(s, s[i].children[k], x)), ops)
  {
    var c := s[i].children[k];
    forall x: nat | Below(s, c, x)
      ensures GrownAt(s, u, x, Decay(ChildAmount(amount), Depth(s, c, x)), ops)
    {
      BelowOrder(s, c, x);
      BelowStable(s, t, c, x);
      assert t[x] == s[x];
      assert GrownAt(t, u, x, Decay(ChildAmount(amount), Depth(t, c, x)), ops);
    }
  }

  /** Fresh branches from earlier children stay fresh; those from child `k` hang below it. */
  lemma FreshStay(s: seq<Branch>, t: seq<Branch>, u: seq<Branch>, i: nat, k: nat, amount: real, ops: QuatOps)
    requires Linked(s) && LoopState(s, t, i, k, amount, ops) && k < |s[i].children|
    requires Effect(t, u, s[i].children[k], ChildAmount(amount), ops)
    ensures forall j :: |s| <= j < |u| ==>
          && NewLeaf(u, j) && Below(s, i, u[j].parent.value)
          && forall m :: k + 1 <= m < |s[i].children| ==> !Below(s, s[i].children[m], u[j].parent.value)
  {
    var ch := s[i].children;
    var c := ch[k];
    forall j | |s| <= j < |u|
      ensures NewLeaf(u, j) && Below(s, i, u[j].parent.value)
      ensures forall m :: k + 1 <= m < |ch| ==> !Below(s, ch[m], u[j].parent.value)
    {
      if j < |t| {
        var p := t[j].parent.value;
        assert !Below(s, c, p);
        BelowOrder(s, i, p);
        OffSubtree(s, t, c, p, j);
      } else {
        var p := u[j].parent.value;
        assert Below(t, c, p);
        if |s| <= p {
          var q := t[p].parent.value;
          assert !Below(s, c, q);
          BelowOrder(s, i, q);
          OffSubtree(s, t, c, q, p);
        }
        BelowOrder(t, c, p);
        BelowStable(s, t, c, p);
        BelowTrans(s, i, c, p);
        forall m | k + 1 <= m < |ch|
          ensures !Below(s, ch[m], p)
        {
          SiblingsDisjoint(s, i, k, m, p);
        }
      }
    }
  }

  /** When every child has grown, the whole call has had its effect. */
  lemma LoopDone(s: seq<Branch>, t: seq<Branch>, i: nat, amount: real, ops: QuatOps)
    requires Linked(s) && i < |s| && |s[i].children| > 0
    requires LoopState(s, t, i, |s[i].children|, amount, ops)
    ensures Effect(s, t, i, amount, ops)
  {
    var ch := s[i].children;
    forall x: nat | Below(s, i, x)
      ensures GrownAt(s, t, x, Decay(amount, Depth(s, i, x)), ops)
    {
      if x != i {
        var m := ChildOnPath(s, i, x);
        assert GrownAt(s, t, x, Decay(ChildAmount(amount), Depth(s, ch[m], x)), ops);
      }
    }
  }

  /** A leaf that lengthens changes nothing else. */
  lemma LengthenEffect(s: seq<Branch>, t: seq<Branch>, i: nat, amount: real, ops: QuatOps)
    requires Linked(s) && i < |s| && s[i].children == [] && s[i].length < 0.5
    requires t == s[i := s[i].(length := s[i].length + Lengthening(amount))]
    ensures Effect(s, t, i, amount, ops) && Linked(t)
  {
    forall x: nat | Below(s, i, x)
      ensures x == i
    {
      LeafBelow(s, i, x);
    }
  }

  /** The vector after leaf `i` split: two fresh branches appended, listed as its children. */
  ghost predicate SplitShape(s: seq<Branch>, t: seq<Branch>, i: nat, ops: QuatOps)
  {
    && i < |s| && |t| == |s| + 2
    && (forall j :: 0 <= j < |s| && j != i ==> t[j] == s[j])
    && t[i] == s[i].(children := s[i].children + [|s|, |s| + 1])
    && t[|s|] == NewBranch(|s|, ops.mul(s[i].direction, TiltA), 0.0, 0.01, Some(i))
    && t[|s| + 1] == NewBranch(|s| + 1, ops.mul(s[i].direction, TiltB), 0.0, 0.01, Some(i))
  }

  /** A leaf that splits gets two fresh children appended at the end. */
  lemma SplitEffect(s: seq<Branch>, t: seq<Branch>, i: nat, amount: real, ops: QuatOps)
    requires SplitShape(s, t, i, ops) && Linked(s) && s[i].children == [] && !(s[i].length < 0.5)
    ensures Effect(s, t, i, amount, ops) && Linked(t)
  {
    forall x: nat | Below(s, i, x)
      ensures x == i
    {
      LeafBelow(s, i, x);
    }
    assert SplitInto(s, t, i, ops);
    forall j | |s| <= j < |t|
      ensures NewLeaf(t, j) && Below(s, i, t[j].parent.value)
    {
      assert t[j].parent == Some(i);
    }
    SplitLinked(s, t, i, ops);
  }

  lemma SplitLinked(s: seq<Branch>, t: seq<Branch>, i: nat, ops: QuatOps)
    requires SplitShape(s, t, i, ops) && Linked(s) && s[i].children == []
    ensures Linked(t)
  {
    SplitChildLinks(s, t, i, ops);
    SplitParentLinks(s, t, i, ops);
  }

  lemma SplitChildLinks(s: seq<Branch>, t: seq<Branch>, i: nat, ops: QuatOps)
    requires SplitShape(s, t, i, ops) && Linked(s) && s[i].children == []
    ensures forall i0, k :: 0 <= i0 < |t| && 0 <= k < |t[i0].children| ==>
          i0 < t[i0].children[k] < |t| && t[t[i0].children[k]].parent == Some(i0)
  {
    forall i0, k | 0 <= i0 < |t| && 0 <= k < |t[i0].children|
      ensures i0 < t[i0].children[k] < |t| && t[t[i0].children[k]].parent == Some(i0)
    {
      if i0 != i {
        var c := s[i0].children[k];
        assert t[c].parent == s[c].parent;
      }
    }
  }

  lemma SplitParentLinks(s: seq<Branch>, t: seq<Branch>, i: nat, ops: QuatOps)
    requires SplitShape(s, t, i, ops) && Linked(s) && s[i].children == []
    ensures forall j :: 0 <= j < |t| && t[j].parent.Some? ==>
          t[j].parent.value < j && j in t[t[j].parent.value].children
  {
    forall j | 0 <= j < |t| && t[j].parent.Some?
      ensures t[j].parent.value < j && j in t[t[j].parent.value].children
    {
      if j < |s| {
        assert t[j].parent == s[j].parent;
        var p := s[j].parent.value;
        assert p != i;
        assert t[p] == s[p];
      }
    }
  }

  /** A change to one branch that keeps every link keeps the vector linked. */
  lemma SameLinks(s: seq<Branch>, t: seq<Branch>, i: nat, b: Branch)
    requires Linked(s) && i < |s| && t == s[i := b]
    requires b.index == s[i].index && b.parent == s[i].parent && b.children == s[i].children
    ensures Linked(t)
  {
  }

  class Tree {
    var seed: nat
    var age: real
    var branches: seq<Branch>
    var root: nat
    const ops: QuatOps

    ghost predicate Valid()
      reads this
    {
      root == 0 && Linked(branches) && Rooted(branches)
    }

    /** `Tree::new`: one root branch of length 0.1 and radius 0.01. */
    constructor (seed: nat, age: real, ops: QuatOps)
      ensures Valid()
      ensures this.seed == seed && this.age == age && this.ops == ops && root == 0
      ensures branches == [NewBranch(0, RootDirection, 0.1, 0.01, None)]
    {
      this.seed := seed;
      this.age := age;
      this.ops := ops;
      branches := [NewBranch(0, RootDirection, 0.1, 0.01, None)];
      root := 0;
    }

    /** `grow`: ages the tree and grows every branch from the root. */
    method Grow(amount: real)
      requires Valid()
      modifies this
      ensures Valid()
      ensures seed == old(seed) && age == old(age) + amount && root == old(root)
      ensures Effect(old(branches), branches, root, amount, ops)
      ensures forall x :: 0 <= x < |old(branches)| ==>
                && Below(old(branches), 0, x)
                && GrownAt(old(branches), branches, x, Decay(amount, Depth(old(branches), 0, x)), ops)
    {
      age := age + amount;
      if |branches| > 0 {
        ghost var s := branches;
        GrowBranch(root, amount, |branches|);
        GrowKeepsRooted(s, branches, amount, ops);
      }
    }

    /** `grow_branch`. The ghost `bound` is the number of branches when the growth
        started: the recursion only visits branches below it. */
    method GrowBranch(idx: nat, amount: real, ghost bound: nat)
      requires Linked(branches) && idx < bound <= |branches|
      requires forall x: nat :: Below(branches, idx, x) ==> x < bound
      modifies this
      ensures Linked(branches)
      ensures Effect(old(branches), branches, idx, amount, ops)
      ensures seed == old(seed) && age == old(age) && root == old(root)
      decreases bound - idx, 2
    {
      var branch := branches[idx];
      if |branch.children| > 0 {
        GrowChildren(idx, amount, bound);
      } else if branch.length < 0.5 {
        // a leaf: lengthen it
        ghost var s := branches;
        branches := branches[idx := branch.(length := branch.length + Lengthening(amount))];
        LengthenEffect(s, branches, idx, amount, ops);
      } else {
        SplitLeaf(idx);
        SplitEffect(old(branches), branches, idx, amount, ops);
      }
    }

    /** The first branch of `grow_branch`: widen branch `idx`, then grow each of its
        children, in list order, by 0.99 of the amount. */
    method GrowChildren(idx: nat, amount: real, ghost bound: nat)
      requires Linked(branches) && idx < bound <= |branches| && |branches[idx].children| > 0
      requires forall x: nat :: Below(branches, idx, x) ==> x < bound
      modifies this
      ensures Linked(branches)
      ensures Effect(old(branches), branches, idx, amount, ops)
      ensures seed == old(seed) && age == old(age) && root == old(root)
      decreases bound - idx, 1
    {
      ghost var s := branches;
      var branch := branches[idx];
      branches := branches[idx := branch.(radius := branch.radius + Widening(amount))];
      SameLinks(s, branches, idx, branch.(radius := branch.radius + Widening(amount)));
      LoopStart(s, branches, idx, amount, ops);
      var children := branch.children;
      for k := 0 to |children|
        invariant Linked(branches)
        invariant LoopState(s, branches, idx, k, amount, ops)
        invariant seed == old(seed) && age == old(age) && root == old(root)
      {
        GrowChild(idx, children[k], amount, bound, s, k);
      }
      LoopDone(s, branches, idx, amount, ops);
    }

    /** One turn of the loop over the children: grow child `k` of `idx`. */
    method GrowChild(idx: nat, child: nat, amount: real, ghost bound: nat, ghost s: seq<Branch>, ghost k: nat)
      requires Linked(s) && LoopState(s, branches, idx, k, amount, ops) && k < |s[idx].children|
      requires child == s[idx].children[k] && Linked(branches)
      requires forall x: nat :: Below(s, idx, x) ==> x < bound
      requires idx < bound <= |branches|
      modifies this
      ensures Linked(branches) && LoopState(s, branches, idx, k + 1, amount, ops)
      ensures seed == old(seed) && age == old(age) && root == old(root)
      decreases bound - idx, 0
    {
      ghost var t := branches;
      CallPre(s, t, idx, k, amount, ops, bound);
      GrowBranch(child, ChildAmount(amount), bound);
      LoopStep(s, t, branches, idx, k, amount, ops);
    }

    /** The last branch of `grow_branch`: leaf `idx` gets two fresh children, tilted
        either way from its direction. */
    method SplitLeaf(idx: nat)
      requires idx < |branches|
      modifies this`branches
      ensures SplitShape(old(branches), branches, idx, ops)
    {
      var direction := branches[idx].direction;
      var directionA := ops.mul(direction, TiltA);
      var directionB := ops.mul(direction, TiltB);
      var newBranchA := NewBranch(|branches|, directionA, 0.0, 0.01, Some(idx));
      var newBranchB := NewBranch(|branches| + 1, directionB, 0.0, 0.01, Some(idx));
      var newIdxA := |branches|;
      branches := branches + [newBranchA];
      var newIdxB := |branches|;
      branches := branches + [newBranchB];
      branches := branches[idx := branches[idx].(children := branches[idx].children + [newIdxA])];
      branches := branches[idx := branches[idx].(children := branches[idx].children + [newIdxB])];
    }

    /** `branch_start`: the origin for a branch without parent, else its parent's end. */
    function BranchStart(i: nat): (p: Vec3)
      requires Valid() && i < |branches|
      reads this
      ensures branches[i].parent.None? ==> p == Zero3
      decreases i, 0
    {
      match branches[i].parent
      case None => Zero3
      case Some(parent) => BranchEnd(parent)
    }

    /** `branch_end`: the start moved along the branch's direction by its length. */
    function BranchEnd(i: nat): (p: Vec3)
      requires Valid() && i < |branches|
      reads this
      decreases i, 1
    {
      Add(BranchStart(i), ops.rotate(branches[i].direction, Vec3(0.0, branches[i].length, 0.0)))
    }
  }

  /** Growing from the root keeps branch 0 the only parentless branch, and reaches
      every branch that existed before. */
  lemma GrowKeepsRooted(s: seq<Branch>, t: seq<Branch>, amount: real, ops: QuatOps)
    requires Linked(s) && Rooted(s) && Effect(s, t, 0, amount, ops)
    ensures Rooted(t)
    ensures forall x :: 0 <= x < |s| ==>
              && Below(s, 0, x)
              && GrownAt(s, t, x, Decay(amount, Depth(s, 0, x)), ops)
  {
    forall x | 0 <= x < |s|
      ensures Below(s, 0, x)
    {
      AllBelowRoot(s, x);
    }
  }

  /** In a valid tree the root branch starts at the origin. */
  lemma RootStartsAtOrigin(t: Tree)
    requires t.Valid()
    ensures t.BranchStart(0) == Zero3
  {
  }

  /** Every other branch starts where its parent ends. */
  lemma ChildStartsAtParentEnd(t: Tree, j: nat)
    requires t.Valid() && 0 < j < |t.branches|
    ensures t.branches[j].parent.Some? && t.branches[j].parent.value < j
    ensures t.BranchStart(j) == t.BranchEnd(t.branches[j].parent.value)
  {
  }
}
