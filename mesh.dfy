/** Stitching the sampled outlines of an arena into one triangle mesh
    (`generate_mesh` and the perimeter connectors), and the two helpers for
    joining point runs of different lengths (`triangulate_between_segments`,
    `angle_range_to_indices`). Vertex indices are `nat`: the source's `u32`
    index arithmetic is taken not to wrap. */
module Mesh {
  import opened Geometry
  import opened Structure
  import opened Sampling

  datatype RingMesh = RingMesh(
    vertices: seq<Vec3>,
    normals: seq<Vec3>,
    uvs: seq<Vec2>,
    indices: seq<nat>,
    depths: seq<nat>)

  const EmptyMesh: RingMesh := RingMesh([], [], [], [], [])

  /** The per-vertex buffers agree in length, there are three indices per vertex
      (so whole triangles), and every index names a vertex. */
  ghost predicate WellFormed(mesh: RingMesh)
  {
    && |mesh.normals| == |mesh.vertices|
    && |mesh.uvs| == |mesh.vertices|
    && |mesh.depths| == |mesh.vertices|
    && |mesh.indices| == 3 * |mesh.vertices|
    && (forall j :: 0 <= j < |mesh.indices| ==> mesh.indices[j] < |mesh.vertices|)
  }

  function NatMin(a: nat, b: nat): nat { if a <= b then a else b }

  /** The vertices of the first `k` pairs of a band: parent point, then child point. */
  function BandVertices(parent: seq<Vec3>, child: seq<Vec3>, k: nat): (r: seq<Vec3>)
    requires k <= |parent| && k <= |child|
    ensures |r| == 2 * k
  {
    if k == 0 then [] else BandVertices(parent, child, k - 1) + [parent[k - 1], child[k - 1]]
  }

  /** The normal of the quad between pairs `i` and `i + 1` (cyclically). */
  function FaceNormal(parent: seq<Vec3>, child: seq<Vec3>, i: nat, n: nat, m: Math): Vec3
    requires i < n <= |parent| && n <= |child|
  {
    var next := (i + 1) % n;
    m.normalize(Cross(Sub(child[i], parent[i]), Sub(parent[next], parent[i])))
  }

  /** The normals of the first `k` of `n` pairs: the face normal, twice. */
  function BandNormals(parent: seq<Vec3>, child: seq<Vec3>, n: nat, k: nat, m: Math): (r: seq<Vec3>)
    requires k <= n <= |parent| && n <= |child|
    ensures |r| == 2 * k
  {
    if k == 0 then []
    else
      var f := FaceNormal(parent, child, k - 1, n, m);
      BandNormals(parent, child, n, k - 1, m) + [f, f]
  }

  /** The `u` coordinate of pair `i` of `n`: `i / n`. */
  function Around(i: nat, n: nat): real
    requires i < n
  {
    i as real / n as real
  }

  /** The texture coordinates of the first `k` of `n` pairs: `(i/n, 0)` on the
      parent, `(i/n, 1)` on the child. */
  function BandUvs(n: nat, k: nat): (r: seq<Vec2>)
    requires k <= n
    ensures |r| == 2 * k
  {
    if k == 0 then [] else BandUvs(n, k - 1) + [Vec2(Around(k - 1, n), 0.0), Vec2(Around(k - 1, n), 1.0)]
  }

  /** The depth tags of the first `k` pairs. */
  function BandDepths(parentDepth: nat, childDepth: nat, k: nat): (r: seq<nat>)
    ensures |r| == 2 * k
  {
    if k == 0 then [] else BandDepths(parentDepth, childDepth, k - 1) + [parentDepth, childDepth]
  }

  /** The two triangles of quad `i` of `n`, over vertices numbered from `base`. */
  function Quad(base: nat, n: nat, i: nat): seq<nat>
    requires i < n
  {
    var next := (i + 1) % n;
    [base + i * 2, base + (i * 2 + 1), base + (next * 2 + 1),
     base + i * 2, base + (next * 2 + 1), base + next * 2]
  }

  /** The triangles of the first `k` quads of a band of `n` pairs. */
  function BandIndices(base: nat, n: nat, k: nat): (r: seq<nat>)
    requires k <= n
    ensures |r| == 6 * k
  {
    if k == 0 then [] else BandIndices(base, n, k - 1) + Quad(base, n, k - 1)
  }

  /** Vertex `j` of a band is parent point `j / 2` when `j` is even and child
      point `j / 2` when odd. */
  lemma {:induction false} BandVerticesAt(parent: seq<Vec3>, child: seq<Vec3>, k: nat)
    requires k <= |parent| && k <= |child|
    ensures forall j :: 0 <= j < 2 * k ==>
      BandVertices(parent, child, k)[j] == (if j % 2 == 0 then parent[j / 2] else child[j / 2])
  {
    if k > 0 {
      BandVerticesAt(parent, child, k - 1);
    }
  }

  /** Vertex `j` of a band carries the parent depth when `j` is even and the child
      depth when odd. */
  lemma {:induction false} BandDepthsAt(parentDepth: nat, childDepth: nat, k: nat)
    ensures forall j :: 0 <= j < 2 * k ==>
      BandDepths(parentDepth, childDepth, k)[j] == (if j % 2 == 0 then parentDepth else childDepth)
  {
    if k > 0 {
      BandDepthsAt(parentDepth, childDepth, k - 1);
    }
  }

  /** Vertex `j` of a band has `u = (j / 2) / n`, in `[0, 1)`, and `v = 0` on the
      parent side, `v = 1` on the child side. */
  lemma {:induction false} BandUvsAt(n: nat, k: nat)
    requires k <= n
    ensures forall j :: 0 <= j < 2 * k ==>
      BandUvs(n, k)[j] == Vec2(Around(j / 2, n), if j % 2 == 0 then 0.0 else 1.0)
    ensures forall j :: 0 <= j < 2 * k ==> 0.0 <= BandUvs(n, k)[j].x < 1.0
  {
    if k > 0 {
      BandUvsAt(n, k - 1);
      AroundBelowOne(k - 1, n);
    }
  }

  /** `i / n` lies in `[0, 1)`; a helper for `BandUvsAt`. */
  lemma AroundBelowOne(i: nat, n: nat)
    requires i < n
    ensures 0.0 <= Around(i, n) < 1.0
  {
    var u := Around(i, n);
    assert u * n as real == i as real;
    if u >= 1.0 {
      MulLeq(1.0, u, n as real);
    }
  }

  /** Every index of the first `k` quads lies in `[base, base + 2n)`. */
  lemma {:induction false} BandIndicesWithin(base: nat, n: nat, k: nat)
    requires k <= n
    ensures forall j :: 0 <= j < 6 * k ==> base <= BandIndices(base, n, k)[j] < base + 2 * n
  {
    if k > 0 {
      BandIndicesWithin(base, n, k - 1);
      var next := (k - 1 + 1) % n;
      assert next < n;
    }
  }

  /** The buffers one parent-to-child connection appends, with vertices numbered
      from `base`: `n = min(|parent|, |child|)` pairs. */
  function Band(parent: seq<Vec3>, child: seq<Vec3>, parentDepth: nat, childDepth: nat, base: nat, m: Math): RingMesh
  {
    var n := NatMin(|parent|, |child|);
    RingMesh(BandVertices(parent, child, n), BandNormals(parent, child, n, n, m), BandUvs(n, n),
             BandIndices(base, n, n), BandDepths(parentDepth, childDepth, n))
  }

  /** What one connection appends: `2n` vertices, normals, texture coordinates and
      depth tags and `6n` indices, all in `[base, base + 2n)`; vertices alternate
      parent and child points, tagged with the parent depth and `v = 0`, the child
      depth and `v = 1`, with `u = i / n` for pair `i`. */
  lemma BandFacts(parent: seq<Vec3>, child: seq<Vec3>, parentDepth: nat, childDepth: nat, base: nat, m: Math)
    ensures var n := NatMin(|parent|, |child|);
      var b := Band(parent, child, parentDepth, childDepth, base, m);
      && n <= |parent| && n <= |child|
      && |b.vertices| == 2 * n && |b.normals| == 2 * n && |b.uvs| == 2 * n && |b.depths| == 2 * n
      && |b.indices| == 6 * n
      && (forall j :: 0 <= j < 6 * n ==> base <= b.indices[j] < base + 2 * n)
      && (forall j :: 0 <= j < 2 * n ==>
            && b.vertices[j] == (if j % 2 == 0 then parent[j / 2] else child[j / 2])
            && b.depths[j] == (if j % 2 == 0 then parentDepth else childDepth)
            && b.uvs[j] == Vec2(Around(j / 2, n), if j % 2 == 0 then 0.0 else 1.0))
  {
    var n := NatMin(|parent|, |child|);
    BandVerticesAt(parent, child, n);
    BandDepthsAt(parentDepth, childDepth, n);
    BandUvsAt(n, n);
    BandIndicesWithin(base, n, n);
  }

  /** `mesh` with `band` appended to each buffer. */
  function Extend(mesh: RingMesh, band: RingMesh): RingMesh
  {
    RingMesh(mesh.vertices + band.vertices, mesh.normals + band.normals, mesh.uvs + band.uvs,
             mesh.indices + band.indices, mesh.depths + band.depths)
  }

  /** `connect_cross_section_perimeters_with_depth` on the buffers `mesh`. */
  function Connection(mesh: RingMesh, parent: CrossSectionGeometry, child: CrossSectionGeometry,
                      parentDepth: nat, childDepth: nat, m: Math): RingMesh
  {
    Extend(mesh, Band(parent.points, child.points, parentDepth, childDepth, |mesh.vertices|, m))
  }

  /** A connection keeps the buffers well formed and adds `2 min(|parent|, |child|)`
      vertices; the old contents stay as a prefix. */
  lemma ConnectionKeepsWellFormed(mesh: RingMesh, parent: CrossSectionGeometry, child: CrossSectionGeometry,
                                  parentDepth: nat, childDepth: nat, m: Math)
    requires WellFormed(mesh)
    ensures var r := Connection(mesh, parent, child, parentDepth, childDepth, m);
      && WellFormed(r)
      && |r.vertices| == |mesh.vertices| + 2 * NatMin(|parent.points|, |child.points|)
      && r.vertices[..|mesh.vertices|] == mesh.vertices
      && r.indices[..|mesh.indices|] == mesh.indices
  {
    var base := |mesh.vertices|;
    var n := NatMin(|parent.points|, |child.points|);
    var b := Band(parent.points, child.points, parentDepth, childDepth, base, m);
    BandFacts(parent.points, child.points, parentDepth, childDepth, base, m);
    var r := Connection(mesh, parent, child, parentDepth, childDepth, m);
    assert r.indices == mesh.indices + b.indices;
    forall j | 0 <= j < |r.indices|
      ensures r.indices[j] < |r.vertices|
    {
      if j >= |mesh.indices| {
        assert r.indices[j] == b.indices[j - |mesh.indices|];
      }
    }
  }

  /** The output buffers of `generate_mesh`, filled in place by the connectors. */
  class MeshBuffers {
    var vertices: seq<Vec3>
    var normals: seq<Vec3>
    var uvs: seq<Vec2>
    var indices: seq<nat>
    var depths: seq<nat>

    constructor ()
      ensures Value() == EmptyMesh
    {
      vertices, normals, uvs, indices, depths := [], [], [], [], [];
    }

    /** The buffers as a value. */
    function Value(): RingMesh
      reads this
    {
      RingMesh(vertices, normals, uvs, indices, depths)
    }

    /** `connect_cross_section_perimeters_with_depth`: four passes over the
        `min(|parent|, |child|)` pairs, appending vertices and depth tags, face
        normals, texture coordinates, and the two triangles of each quad. */
    method ConnectWithDepth(parent: CrossSectionGeometry, child: CrossSectionGeometry,
                            parentDepth: nat, childDepth: nat, m: Math)
      modifies this
      ensures Value() == Connection(old(Value()), parent, child, parentDepth, childDepth, m)
    {
      ghost var start := Value();
      var base := |vertices|;
      var n := NatMin(|parent.points|, |child.points|);
      for i := 0 to n
        invariant vertices == start.vertices + BandVertices(parent.points, child.points, i)
        invariant depths == start.depths + BandDepths(parentDepth, childDepth, i)
        invariant normals == start.normals && uvs == start.uvs && indices == start.indices
      {
        vertices := vertices + [parent.points[i]];
        vertices := vertices + [child.points[i]];
        depths := depths + [parentDepth];
        depths := depths + [childDepth];
      }
      AppendNormals(parent.points, child.points, n, m);
      AppendUvs(n);
      AppendQuads(base, n);
    }

    /** `connect_cross_section_perimeters`: the same band without depth tags. */
    method Connect(parent: CrossSectionGeometry, child: CrossSectionGeometry, m: Math)
      modifies this
      ensures Value() == Connection(old(Value()), parent, child, 0, 0, m).(depths := old(depths))
    {
      ghost var start := Value();
      var base := |vertices|;
      var n := NatMin(|parent.points|, |child.points|);
      for i := 0 to n
        invariant vertices == start.vertices + BandVertices(parent.points, child.points, i)
        invariant depths == start.depths && normals == start.normals && uvs == start.uvs && indices == start.indices
      {
        vertices := vertices + [parent.points[i]];
        vertices := vertices + [child.points[i]];
      }
      AppendNormals(parent.points, child.points, n, m);
      AppendUvs(n);
      AppendQuads(base, n);
    }

    /** The face-normal pass: for each pair, the normal of the quad it starts,
        pushed for both of its vertices. */
    method AppendNormals(parent: seq<Vec3>, child: seq<Vec3>, n: nat, m: Math)
      requires n <= |parent| && n <= |child|
      modifies this`normals
      ensures normals == old(normals) + BandNormals(parent, child, n, n, m)
    {
      ghost var start := normals;
      for i := 0 to n
        invariant normals == start + BandNormals(parent, child, n, i, m)
      {
        var next := (i + 1) % n;
        var p1 := parent[i];
        var p2 := child[i];
        var p4 := parent[next];
        var edge1 := Sub(p2, p1);
        var edge2 := Sub(p4, p1);
        var faceNormal := m.normalize(Cross(edge1, edge2));
        normals := normals + [faceNormal];
        normals := normals + [faceNormal];
      }
    }

    /** The texture-coordinate pass. */
    method AppendUvs(n: nat)
      modifies this`uvs
      ensures uvs == old(uvs) + BandUvs(n, n)
    {
      ghost var start := uvs;
      for i := 0 to n
        invariant uvs == start + BandUvs(n, i)
      {
        var u := Around(i, n);
        uvs := uvs + [Vec2(u, 0.0)];
        uvs := uvs + [Vec2(u, 1.0)];
      }
    }

    /** The index pass: two triangles per quad, over vertices numbered from `base`. */
    method AppendQuads(base: nat, n: nat)
      modifies this`indices
      ensures indices == old(indices) + BandIndices(base, n, n)
    {
      ghost var start := indices;
      for i := 0 to n
        invariant indices == start + BandIndices(base, n, i)
      {
        var next := (i + 1) % n;
        var p1 := base + i * 2;
        var p2 := base + (i * 2 + 1);
        var p3 := base + (next * 2 + 1);
        var p4 := base + next * 2;
        indices := indices + [p1, p2, p3, p1, p3, p4];
      }
    }
  }

  /** A parent-to-child link of the arena. */
  datatype Edge = Edge(parent: nat, child: nat)

  /** The links of entry `i`, in the order of its children list. */
  function ChildEdges(a: seq<CrossSection>, i: nat): (r: seq<Edge>)
    requires i < |a|
    ensures |r| == |a[i].children|
    ensures forall k :: 0 <= k < |r| ==> r[k] == Edge(i, a[i].children[k])
  {
    seq(|a[i].children|, k requires 0 <= k < |a[i].children| => Edge(i, a[i].children[k]))
  }

  /** The links of entries `0..i`, in arena order. */
  function EdgesBefore(a: seq<CrossSection>, i: nat): seq<Edge>
    requires i <= |a|
  {
    if i == 0 then [] else EdgesBefore(a, i - 1) + ChildEdges(a, i - 1)
  }

  /** Both ends of every link name an entry. */
  ghost predicate EdgesIn(edges: seq<Edge>, n: nat)
  {
    forall j :: 0 <= j < |edges| ==> edges[j].parent < n && edges[j].child < n
  }

  /** With links in range, the links of entries `0..i` are in range. */
  lemma {:induction false} EdgesBeforeIn(a: seq<CrossSection>, i: nat)
    requires LinksInRange(a) && i <= |a|
    ensures EdgesIn(EdgesBefore(a, i), |a|)
  {
    if i > 0 {
      EdgesBeforeIn(a, i - 1);
      ChildEdgesIn(a, i - 1, |a[i - 1].children|);
      assert ChildEdges(a, i - 1)[..|a[i - 1].children|] == ChildEdges(a, i - 1);
      EdgesInAppend(EdgesBefore(a, i - 1), ChildEdges(a, i - 1), |a|);
    }
  }

  /** With links in range, the first `k` links of entry `i` are in range. */
  lemma ChildEdgesIn(a: seq<CrossSection>, i: nat, k: nat)
    requires LinksInRange(a) && i < |a| && k <= |a[i].children|
    ensures EdgesIn(ChildEdges(a, i)[..k], |a|)
  {
    var c := ChildEdges(a, i)[..k];
    forall j | 0 <= j < |c|
      ensures c[j].parent < |a| && c[j].child < |a|
    {
      assert c[j] == Edge(i, a[i].children[j]);
    }
  }

  /** Links in range stay in range when concatenated. */
  lemma EdgesInAppend(e: seq<Edge>, f: seq<Edge>, n: nat)
    requires EdgesIn(e, n) && EdgesIn(f, n)
    ensures EdgesIn(e + f, n)
  {
    forall j | 0 <= j < |e + f|
      ensures (e + f)[j].parent < n && (e + f)[j].child < n
    {
      if j >= |e| {
        assert (e + f)[j] == f[j - |e|];
      }
    }
  }

  /** The links of entries `0..i` and the first `k` of entry `i` are in range. */
  lemma EdgesUpToIn(a: seq<CrossSection>, i: nat, k: nat)
    requires LinksInRange(a) && i < |a| && k <= |a[i].children|
    ensures EdgesIn(EdgesBefore(a, i) + ChildEdges(a, i)[..k], |a|)
  {
    EdgesBeforeIn(a, i);
    ChildEdgesIn(a, i, k);
    EdgesInAppend(EdgesBefore(a, i), ChildEdges(a, i)[..k], |a|);
  }

  /** The outline of every entry. */
  function Geometries(a: seq<CrossSection>, resolution: nat, m: Math): (g: seq<CrossSectionGeometry>)
    ensures |g| == |a|
    ensures forall i :: 0 <= i < |a| ==> g[i] == UnifiedGeometry(a[i], resolution, m)
  {
    seq(|a|, i requires 0 <= i < |a| => UnifiedGeometry(a[i], resolution, m))
  }

  /** The buffers after one connection per link of `edges`, in order, from empty. */
  function MeshOver(a: seq<CrossSection>, geos: seq<CrossSectionGeometry>, edges: seq<Edge>, m: Math): RingMesh
    requires |geos| == |a| && EdgesIn(edges, |a|)
  {
    if |edges| == 0 then EmptyMesh
    else
      var e := edges[|edges| - 1];
      Connection(MeshOver(a, geos, edges[..|edges| - 1], m), geos[e.parent], geos[e.child],
                 a[e.parent].depth, a[e.child].depth, m)
  }

  /** `generate_mesh` on the arena `a`: one band per link, in arena order. */
  function MeshOf(a: seq<CrossSection>, resolution: nat, m: Math): RingMesh
    requires LinksInRange(a)
  {
    EdgesBeforeIn(a, |a|);
    MeshOver(a, Geometries(a, resolution, m), EdgesBefore(a, |a|), m)
  }

  /** Any sequence of connections leaves the buffers well formed. */
  lemma {:induction false} MeshOverWellFormed(a: seq<CrossSection>, geos: seq<CrossSectionGeometry>,
                                              edges: seq<Edge>, m: Math)
    requires |geos| == |a| && EdgesIn(edges, |a|)
    ensures WellFormed(MeshOver(a, geos, edges, m))
    decreases |edges|
  {
    if |edges| > 0 {
      var e := edges[|edges| - 1];
      MeshOverWellFormed(a, geos, edges[..|edges| - 1], m);
      ConnectionKeepsWellFormed(MeshOver(a, geos, edges[..|edges| - 1], m), geos[e.parent], geos[e.child],
                                a[e.parent].depth, a[e.child].depth, m);
    }
  }

  /** The mesh of an arena with links in range: per-vertex buffers of one length,
      three indices per vertex, every index below the vertex count. */
  lemma MeshOfWellFormed(a: seq<CrossSection>, resolution: nat, m: Math)
    requires LinksInRange(a)
    ensures WellFormed(MeshOf(a, resolution, m))
  {
    EdgesBeforeIn(a, |a|);
    MeshOverWellFormed(a, Geometries(a, resolution, m), EdgesBefore(a, |a|), m);
  }

  /** The links of entries `0..i` and the first `k` links of entry `i`. */
  function EdgesUpTo(a: seq<CrossSection>, i: nat, k: nat): seq<Edge>
    requires i < |a| && k <= |a[i].children|
  {
    EdgesBefore(a, i) + ChildEdges(a, i)[..k]
  }

  /** One more link of entry `i` is one more connection on the buffers. */
  lemma MeshOverNext(a: seq<CrossSection>, geos: seq<CrossSectionGeometry>, i: nat, k: nat, m: Math)
    requires LinksInRange(a) && |geos| == |a| && i < |a| && k < |a[i].children|
    ensures EdgesIn(EdgesUpTo(a, i, k), |a|) && EdgesIn(EdgesUpTo(a, i, k + 1), |a|)
    ensures var c := a[i].children[k];
      MeshOver(a, geos, EdgesUpTo(a, i, k + 1), m)
        == Connection(MeshOver(a, geos, EdgesUpTo(a, i, k), m), geos[i], geos[c], a[i].depth, a[c].depth, m)
  {
    EdgesUpToIn(a, i, k);
    EdgesUpToIn(a, i, k + 1);
    var before := EdgesUpTo(a, i, k);
    var after := EdgesUpTo(a, i, k + 1);
    assert after[..|after| - 1] == before;
    assert after[|after| - 1] == Edge(i, a[i].children[k]);
  }

  /** All links of entry `i` bring the buffers to the links of entries `0..i+1`. */
  lemma EdgesUpToAll(a: seq<CrossSection>, i: nat)
    requires i < |a|
    ensures EdgesUpTo(a, i, |a[i].children|) == EdgesBefore(a, i + 1)
  {
    assert ChildEdges(a, i)[..|a[i].children|] == ChildEdges(a, i);
  }

  /** `generate_mesh`: sample every entry, then connect each entry to each of its
      children, in arena order. */
  method GenerateMesh(a: seq<CrossSection>, resolution: nat, m: Math) returns (mesh: RingMesh)
    requires LinksInRange(a)
    ensures mesh == MeshOf(a, resolution, m)
    ensures WellFormed(mesh)
  {
    var geos := SampleAll(a, resolution, m);
    var buffers := new MeshBuffers();
    EdgesBeforeIn(a, 0);
    for i := 0 to |a|
      invariant EdgesIn(EdgesBefore(a, i), |a|)
      invariant buffers.Value() == MeshOver(a, geos, EdgesBefore(a, i), m)
    {
      ConnectChildren(a, geos, i, m, buffers);
      EdgesBeforeIn(a, i + 1);
    }
    mesh := buffers.Value();
    EdgesBeforeIn(a, |a|);
    MeshOfWellFormed(a, resolution, m);
  }

  /** The inner loop of `generate_mesh`: connect entry `i` to each of its children. */
  method ConnectChildren(a: seq<CrossSection>, geos: seq<CrossSectionGeometry>, i: nat, m: Math, buffers: MeshBuffers)
    requires LinksInRange(a) && |geos| == |a| && i < |a|
    requires EdgesIn(EdgesBefore(a, i), |a|)
    requires buffers.Value() == MeshOver(a, geos, EdgesBefore(a, i), m)
    modifies buffers
    ensures EdgesIn(EdgesBefore(a, i + 1), |a|)
    ensures buffers.Value() == MeshOver(a, geos, EdgesBefore(a, i + 1), m)
  {
    var children := a[i].children;
    EdgesUpToIn(a, i, 0);
    assert EdgesUpTo(a, i, 0) == EdgesBefore(a, i);
    for k := 0 to |children|
      invariant EdgesIn(EdgesUpTo(a, i, k), |a|)
      invariant buffers.Value() == MeshOver(a, geos, EdgesUpTo(a, i, k), m)
    {
      var child := children[k];
      MeshOverNext(a, geos, i, k, m);
      buffers.ConnectWithDepth(geos[i], geos[child], a[i].depth, a[child].depth, m);
    }
    EdgesUpToAll(a, i);
  }

  /** The sampling pass of `generate_mesh` (`map` and `collect` over the arena). */
  method SampleAll(a: seq<CrossSection>, resolution: nat, m: Math) returns (geos: seq<CrossSectionGeometry>)
    ensures geos == Geometries(a, resolution, m)
  {
    geos := [];
    for i := 0 to |a|
      invariant geos == Geometries(a, resolution, m)[..i]
    {
      var g := GenerateUnifiedGeometry(a[i], resolution, m);
      geos := geos + [g];
    }
  }

  // ---------------------------------------------------------------------------
  // Joining two point runs of different lengths

  /** How far along a run of `count` points point `i` lies: `i / (count - 1)`. */
  function Progress(i: nat, count: nat): real
    requires count >= 2
  {
    i as real / (count - 1) as real
  }

  /** Progress lies in `[0, 1]` and is `1` exactly at the last point. */
  lemma ProgressBounds(i: nat, count: nat)
    requires count >= 2 && i <= count - 1
    ensures 0.0 <= Progress(i, count) <= 1.0
    ensures Progress(i, count) == 1.0 <==> i == count - 1
    ensures i == 0 ==> Progress(i, count) == 0.0
  {
    var d := (count - 1) as real;
    var t := Progress(i, count);
    assert t * d == i as real;
    if t < 0.0 {
      MulLess(t, 0.0, d);
    }
    if i < count - 1 && t >= 1.0 {
      MulLeq(1.0, t, d);
    }
    if i == count - 1 {
      assert t == 1.0;
    }
  }

  /** One pass of the marching loop of `triangulate_between_segments`: the
      triangles it emits and where it leaves the two cursors. */
  datatype March = March(triangles: seq<nat>, parentI: nat, childI: nat)

  /** The loop body as written: advance the side that lags (emitting its triangle
      only while the other side has points left), then, when both sides still
      have points left and the progress values are within `0.1`, emit the quad
      over the corners taken before the advance and advance both. */
  function MarchStep(parentCount: nat, childCount: nat, base: nat, pi: nat, ci: nat): (s: March)
    requires parentCount >= 2 && childCount >= 2 && pi <= parentCount - 1 && ci <= childCount - 1
    requires pi < parentCount - 1 || ci < childCount - 1
    ensures s.parentI <= parentCount - 1 && s.childI <= childCount - 1
    ensures pi + ci < s.parentI + s.childI
    ensures |s.triangles| % 3 == 0
    ensures forall j :: 0 <= j < |s.triangles| ==> base <= s.triangles[j] < base + parentCount + childCount
  {
    ProgressBounds(pi, parentCount);
    ProgressBounds(ci, childCount);
    var p1 := base + pi;
    var p2 := base + NatMin(pi + 1, parentCount - 1);
    var c1 := base + parentCount + ci;
    var c2 := base + parentCount + NatMin(ci + 1, childCount - 1);
    var parentProgress := Progress(pi, parentCount);
    var childProgress := Progress(ci, childCount);
    var first :=
      if parentProgress <= childProgress then
        March(if ci < childCount - 1 then [p1, p2, c1] else [], pi + 1, ci)
      else
        March(if pi < parentCount - 1 then [p1, c2, c1] else [], pi, ci + 1);
    if first.parentI < parentCount - 1 && first.childI < childCount - 1
       && Abs(Progress(first.parentI + 1, parentCount) - childProgress) < 0.1
       && Abs(parentProgress - Progress(first.childI + 1, childCount)) < 0.1
    then
      March(first.triangles + [p1, p2, c2] + [p1, c2, c1], first.parentI + 1, first.childI + 1)
    else
      first
  }

  /** The index list the marching loop appends from cursors `(pi, ci)`: whole
      triangles over the `parentCount + childCount` vertices from `base`. */
  function Marching(parentCount: nat, childCount: nat, base: nat, pi: nat, ci: nat): (r: seq<nat>)
    requires parentCount >= 2 && childCount >= 2 && pi <= parentCount - 1 && ci <= childCount - 1
    ensures |r| % 3 == 0
    ensures forall j :: 0 <= j < |r| ==> base <= r[j] < base + parentCount + childCount
    decreases (parentCount - 1 - pi) + (childCount - 1 - ci)
  {
    if pi < parentCount - 1 || ci < childCount - 1 then
      var s := MarchStep(parentCount, childCount, base, pi, ci);
      s.triangles + Marching(parentCount, childCount, base, s.parentI, s.childI)
    else
      []
  }

  /** `triangulate_between_segments`, as written, for runs of at least two points:
      appends `Marching` from cursors `(0, 0)` to `indices`. */
  method TriangulateBetweenSegments(parentCount: nat, childCount: nat, base: nat, indices: seq<nat>)
    returns (out: seq<nat>)
    requires parentCount >= 2 && childCount >= 2
    ensures out == indices + Marching(parentCount, childCount, base, 0, 0)
  {
    out := indices;
    var parentI: nat := 0;
    var childI: nat := 0;
    while parentI < parentCount - 1 || childI < childCount - 1
      invariant parentI <= parentCount - 1 && childI <= childCount - 1
      invariant out + Marching(parentCount, childCount, base, parentI, childI)
                == indices + Marching(parentCount, childCount, base, 0, 0)
      decreases (parentCount - 1 - parentI) + (childCount - 1 - childI)
    {
      ghost var before := out;
      ghost var step := MarchStep(parentCount, childCount, base, parentI, childI);
      MarchingUnfold(parentCount, childCount, base, parentI, childI);
      out, parentI, childI := MarchOnce(parentCount, childCount, base, parentI, childI, out);
      ConcatAssoc(before, step.triangles, Marching(parentCount, childCount, base, parentI, childI));
    }
  }

  lemma ConcatAssoc(a: seq<nat>, b: seq<nat>, c: seq<nat>)
    ensures a + (b + c) == (a + b) + c
  {
  }

  /** One unfolding of `Marching`. */
  lemma MarchingUnfold(parentCount: nat, childCount: nat, base: nat, pi: nat, ci: nat)
    requires parentCount >= 2 && childCount >= 2 && pi <= parentCount - 1 && ci <= childCount - 1
    requires pi < parentCount - 1 || ci < childCount - 1
    ensures var s := MarchStep(parentCount, childCount, base, pi, ci);
      Marching(parentCount, childCount, base, pi, ci)
        == s.triangles + Marching(parentCount, childCount, base, s.parentI, s.childI)
  {
  }

  /** One pass of the marching loop, appending to `out`. */
  method MarchOnce(parentCount: nat, childCount: nat, base: nat, pi: nat, ci: nat, out: seq<nat>)
    returns (out': seq<nat>, pi': nat, ci': nat)
    requires parentCount >= 2 && childCount >= 2 && pi <= parentCount - 1 && ci <= childCount - 1
    requires pi < parentCount - 1 || ci < childCount - 1
    ensures var s := MarchStep(parentCount, childCount, base, pi, ci);
      out' == out + s.triangles && pi' == s.parentI && ci' == s.childI
  {
    out', pi', ci' := out, pi, ci;
    var p1 := base + pi';
    var p2 := base + NatMin(pi' + 1, parentCount - 1);
    var c1 := base + parentCount + ci';
    var c2 := base + parentCount + NatMin(ci' + 1, childCount - 1);
    var parentProgress := Progress(pi', parentCount);
    var childProgress := Progress(ci', childCount);
    if parentProgress <= childProgress {
      if ci' < childCount - 1 {
        out' := out' + [p1, p2, c1];
      }
      pi' := pi' + 1;
    } else {
      if pi' < parentCount - 1 {
        out' := out' + [p1, c2, c1];
      }
      ci' := ci' + 1;
    }
    if pi' < parentCount - 1 && ci' < childCount - 1 {
      var nextParentProgress := Progress(pi' + 1, parentCount);
      var nextChildProgress := Progress(ci' + 1, childCount);
      if Abs(nextParentProgress - childProgress) < 0.1 && Abs(parentProgress - nextChildProgress) < 0.1 {
        out' := out' + [p1, p2, c2];
        out' := out' + [p1, c2, c1];
        pi' := pi' + 1;
        ci' := ci' + 1;
      }
    }
  }

  /** As written, the march can leave a point out of every triangle: joining
      three parent points to two child points emits two triangles, and the last
      parent point (vertex 2) is in neither. */
  lemma MarchingLeavesGap()
    ensures Marching(3, 2, 0, 0, 0) == [0, 1, 3, 1, 4, 3]
    ensures 2 !in Marching(3, 2, 0, 0, 0)
  {
    assert Progress(0, 3) == 0.0 && Progress(1, 3) == 0.5 && Progress(2, 3) == 1.0;
    assert Progress(0, 2) == 0.0 && Progress(1, 2) == 1.0;
    assert MarchStep(3, 2, 0, 0, 0) == March([0, 1, 3], 1, 0);
    assert MarchStep(3, 2, 0, 1, 0) == March([1, 4, 3], 1, 1);
    assert MarchStep(3, 2, 0, 1, 1) == March([], 2, 1);
    assert Marching(3, 2, 0, 2, 1) == [];
    assert [0, 1, 3] + ([1, 4, 3] + ([] + [])) == [0, 1, 3, 1, 4, 3];
  }

  /** The march with one triangle per advance and no guards: the lagging side
      advances and its triangle is always emitted. */
  function CoveringMarch(parentCount: nat, childCount: nat, base: nat, pi: nat, ci: nat): (r: seq<nat>)
    requires parentCount >= 2 && childCount >= 2 && pi <= parentCount - 1 && ci <= childCount - 1
    ensures |r| == 3 * ((parentCount - 1 - pi) + (childCount - 1 - ci))
    ensures forall j :: 0 <= j < |r| ==> base <= r[j] < base + parentCount + childCount
    decreases (parentCount - 1 - pi) + (childCount - 1 - ci)
  {
    ProgressBounds(pi, parentCount);
    ProgressBounds(ci, childCount);
    if pi == parentCount - 1 && ci == childCount - 1 then []
    else if Progress(pi, parentCount) <= Progress(ci, childCount) then
      [base + pi, base + pi + 1, base + parentCount + ci] + CoveringMarch(parentCount, childCount, base, pi + 1, ci)
    else
      [base + pi, base + parentCount + ci + 1, base + parentCount + ci] + CoveringMarch(parentCount, childCount, base, pi, ci + 1)
  }

  /** Every point of both runs from the cursors on is a corner of some triangle. */
  lemma {:induction false} CoveringMarchCoversAll(parentCount: nat, childCount: nat, base: nat, pi: nat, ci: nat)
    requires parentCount >= 2 && childCount >= 2 && pi <= parentCount - 1 && ci <= childCount - 1
    requires pi < parentCount - 1 || ci < childCount - 1
    ensures forall v :: base + pi <= v < base + parentCount ==> v in CoveringMarch(parentCount, childCount, base, pi, ci)
    ensures forall v :: base + parentCount + ci <= v < base + parentCount + childCount ==>
      v in CoveringMarch(parentCount, childCount, base, pi, ci)
    decreases (parentCount - 1 - pi) + (childCount - 1 - ci)
  {
    ProgressBounds(pi, parentCount);
    ProgressBounds(ci, childCount);
    var r := CoveringMarch(parentCount, childCount, base, pi, ci);
    if Progress(pi, parentCount) <= Progress(ci, childCount) {
      var rest := CoveringMarch(parentCount, childCount, base, pi + 1, ci);
      assert r == [base + pi, base + pi + 1, base + parentCount + ci] + rest;
      if pi + 1 < parentCount - 1 || ci < childCount - 1 {
        CoveringMarchCoversAll(parentCount, childCount, base, pi + 1, ci);
      }
    } else {
      var rest := CoveringMarch(parentCount, childCount, base, pi, ci + 1);
      assert r == [base + pi, base + parentCount + ci + 1, base + parentCount + ci] + rest;
      if pi < parentCount - 1 || ci + 1 < childCount - 1 {
        CoveringMarchCoversAll(parentCount, childCount, base, pi, ci + 1);
      }
    }
  }

  // ---------------------------------------------------------------------------
  // Outline indices of an angular range

  const TwoPi: real := 2.0 * Pi

  /** The counter-clockwise angle from `start` to `end`, both in `[0, 2 pi)`;
      equal angles span the whole turn. */
  function AngleSpan(start: real, end: real): (span: real)
    requires 0.0 <= start < TwoPi && 0.0 <= end < TwoPi
    ensures 0.0 < span <= TwoPi
    ensures start + span == (if end > start then end else end + TwoPi)
  {
    if end > start then end - start else (TwoPi - start) + end
  }

  /** How many outline points a span covers at `resolution` points per turn, at
      least three (`as usize` truncates and saturates). */
  function SegmentPoints(span: real, resolution: nat): (n: nat)
    ensures 3 <= n
  {
    TruncU32(Max(TurnShare(span, resolution), 3.0))
  }

  /** The share of `resolution` points per turn that `span` takes. */
  function TurnShare(span: real, resolution: nat): real
  {
    span / TwoPi * resolution as real
  }

  /** The outline point nearest below `angle`, wrapped to `[0, resolution)`. */
  function AngleIndex(angle: real, resolution: nat): (k: nat)
    requires resolution > 0
    ensures k < resolution
  {
    TruncU32(angle / TwoPi * resolution as real) % resolution
  }

  /** The angle of point `i` of `count` spread evenly over `span` from `start`. */
  function SegmentAngle(start: real, span: real, i: nat, count: nat): real
    requires count >= 2
  {
    start + Progress(i, count) * span
  }

  /** `angle_range_to_indices` as a value. */
  function AngleIndices(startAngle: real, endAngle: real, resolution: nat): (r: seq<nat>)
    requires resolution > 0
    ensures 3 <= |r|
    ensures forall j :: 0 <= j < |r| ==> r[j] < resolution
  {
    var start := RemEuclid(startAngle, TwoPi);
    var end := RemEuclid(endAngle, TwoPi);
    var span := AngleSpan(start, end);
    var count := SegmentPoints(span, resolution);
    seq(count, i requires 0 <= i < count => AngleIndex(SegmentAngle(start, span, i, count), resolution))
  }

  /** The indices run from the point of the start angle to the point of the end
      angle (taken a turn later when it is not past the start), and there are no
      more of them than `max(resolution, 3)`. */
  lemma AngleIndicesEnds(startAngle: real, endAngle: real, resolution: nat)
    requires resolution > 0
    ensures var start := RemEuclid(startAngle, TwoPi);
      var end := RemEuclid(endAngle, TwoPi);
      var r := AngleIndices(startAngle, endAngle, resolution);
      && r[0] == AngleIndex(start, resolution)
      && r[|r| - 1] == AngleIndex(if end > start then end else end + TwoPi, resolution)
      && |r| <= (if resolution >= 3 then resolution else 3)
  {
    var start := RemEuclid(startAngle, TwoPi);
    var end := RemEuclid(endAngle, TwoPi);
    var span := AngleSpan(start, end);
    var count := SegmentPoints(span, resolution);
    ProgressBounds(0, count);
    ProgressBounds(count - 1, count);
    assert SegmentAngle(start, span, 0, count) == start;
    assert SegmentAngle(start, span, count - 1, count) == start + span;
    SegmentPointsAtMost(span, resolution);
  }

  /** A span of at most a turn gives at most `max(resolution, 3)` points. */
  lemma SegmentPointsAtMost(span: real, resolution: nat)
    requires span <= TwoPi
    ensures SegmentPoints(span, resolution) <= (if resolution >= 3 then resolution else 3)
  {
    var bound: nat := if resolution >= 3 then resolution else 3;
    FractionAtMost(span, resolution);
    TruncAtMost(Max(TurnShare(span, resolution), 3.0), bound);
  }

  /** `span / 2 pi * resolution <= resolution` for a span of at most a turn; a helper for `SegmentPointsAtMost`. */
  lemma FractionAtMost(span: real, resolution: nat)
    requires span <= TwoPi
    ensures TurnShare(span, resolution) <= resolution as real
  {
    var f := span / TwoPi;
    assert f * TwoPi == span;
    if f > 1.0 {
      MulLess(1.0, f, TwoPi);
    }
    if resolution > 0 {
      MulLeq(f, 1.0, resolution as real);
    }
  }

  /** Truncating a value of at most `bound` gives at most `bound`; a helper for `SegmentPointsAtMost`. */
  lemma TruncAtMost(x: real, bound: nat)
    requires x <= bound as real
    ensures TruncU32(x) <= bound
  {
  }

  /** `angle_range_to_indices`: normalise both angles, work out the span and the
      point count, then push the index of each evenly spread angle. */
  method AngleRangeToIndices(startAngle: real, endAngle: real, resolution: nat) returns (indices: seq<nat>)
    requires resolution > 0
    ensures indices == AngleIndices(startAngle, endAngle, resolution)
  {
    var start := RemEuclid(startAngle, TwoPi);
    var end := RemEuclid(endAngle, TwoPi);
    var angleSpan := AngleSpan(start, end);
    var pointsInSegment := SegmentPoints(angleSpan, resolution);
    indices := [];
    for i := 0 to pointsInSegment
      invariant indices == AngleIndices(startAngle, endAngle, resolution)[..i]
    {
      var angle := SegmentAngle(start, angleSpan, i, pointsInSegment);
      var index := AngleIndex(angle, resolution);
      indices := indices + [index];
    }
  }
}
