/**
 One chunk of the world: its occupancy bits, the mesh last uploaded for it,
 and the `dirty` flag that says the mesh is stale. Editing a bit only marks
 the chunk dirty; `RebuildIfDirty` brings the mesh back in line.
 */
module Chunks {
  import opened Grid
  import opened Mesher
  import opened Geometry

  datatype Chunk = Chunk(voxels: Voxels, mesh: Mesh, dirty: bool)

  /** A default-constructed chunk: no voxels, no mesh, dirty. */
  const NewChunk := Chunk(NoVoxels, EmptyMesh, true)

  /** The mesh is up to date whenever the chunk claims to be clean. */
  predicate Consistent(c: Chunk) {
    !c.dirty ==> c.mesh == MeshOf(Faces(c.voxels))
  }

  /** `Chunk::Set`: occupy one voxel and mark the chunk dirty. The bitset
      rejects positions past its end, hence the bound on the flat index
      (the per-axis coordinates themselves are not checked). */
  function Set(c: Chunk, x: nat, y: nat, z: nat): (r: Chunk)
    requires Index(x, y, z) < Volume
    ensures !Empty(r.voxels, x, y, z)
    ensures forall i | 0 <= i < Volume && i != Index(x, y, z) :: r.voxels[i] == c.voxels[i]
    ensures r.dirty && r.mesh == c.mesh
    ensures Consistent(r)
  {
    Chunk(c.voxels[Index(x, y, z) := true], c.mesh, true)
  }

  /** `Chunk::Remove`: clear one voxel and mark the chunk dirty. */
  function Remove(c: Chunk, x: nat, y: nat, z: nat): (r: Chunk)
    requires Index(x, y, z) < Volume
    ensures Empty(r.voxels, x, y, z)
    ensures forall i | 0 <= i < Volume && i != Index(x, y, z) :: r.voxels[i] == c.voxels[i]
    ensures r.dirty && r.mesh == c.mesh
    ensures Consistent(r)
  {
    Chunk(c.voxels[Index(x, y, z) := false], c.mesh, true)
  }

  /** `Chunk::RebuildIfDirty`: a clean chunk is left alone; a dirty one gets
      the mesh of the faces its voxels expose and becomes clean. The mesh is
      built with each quad over its own four vertices (see `Geometry.Build`
      for the source's off-by-one-quad indices). */
  function RebuildIfDirty(c: Chunk): (r: Chunk)
    ensures !r.dirty && r.voxels == c.voxels
    ensures !c.dirty ==> r == c
    ensures c.dirty || Consistent(c) ==> Consistent(r)
    ensures c.dirty ==> |r.mesh.positions| == 4 * |Faces(c.voxels)|
    ensures c.dirty ==> r.mesh.indexCount == |r.mesh.indices| == 6 * |Faces(c.voxels)|
  {
    if !c.dirty then c else Chunk(c.voxels, MeshOf(Faces(c.voxels)), false)
  }

  /** A second rebuild with no edit in between changes nothing. */
  lemma RebuildIdempotent(c: Chunk)
    ensures RebuildIfDirty(RebuildIfDirty(c)) == RebuildIfDirty(c)
  {
  }

  /** Setting an occupied voxel, or removing an empty one, leaves the bits
      alone but still marks the chunk dirty. */
  lemma SetRemoveNoOp(c: Chunk, x: nat, y: nat, z: nat)
    requires Index(x, y, z) < Volume
    ensures !Empty(c.voxels, x, y, z) ==> Set(c, x, y, z).voxels == c.voxels
    ensures Empty(c.voxels, x, y, z) ==> Remove(c, x, y, z).voxels == c.voxels
  {
  }

  /** Removing a voxel just set restores its old state when it was empty. */
  lemma RemoveUndoesSet(c: Chunk, x: nat, y: nat, z: nat)
    requires Index(x, y, z) < Volume && Empty(c.voxels, x, y, z)
    ensures Remove(Set(c, x, y, z), x, y, z).voxels == c.voxels
  {
  }

  /** After any edit and a rebuild, the mesh is that of the edited voxels. */
  lemma EditThenRebuild(c: Chunk, x: nat, y: nat, z: nat)
    requires Index(x, y, z) < Volume
    ensures RebuildIfDirty(Set(c, x, y, z)).mesh == MeshOf(Faces(Set(c, x, y, z).voxels))
    ensures RebuildIfDirty(Remove(c, x, y, z)).mesh == MeshOf(Faces(Remove(c, x, y, z).voxels))
  {
  }

  /** A lone voxel in a fresh chunk rebuilds to 24 vertices and 36 indices. */
  lemma LoneVoxelMesh(x: nat, y: nat, z: nat)
    requires InChunk(x, y, z)
    ensures var m := RebuildIfDirty(Set(NewChunk, x, y, z)).mesh;
      |m.positions| == 24 && |m.normals| == 24 && m.indexCount == 36
  {
    var v := Set(NewChunk, x, y, z).voxels;
    SingleVoxelFaces(v, x, y, z);
  }

  /** Two face-adjacent voxels rebuild to ten quads, 40 vertices and 60
      indices, whichever of the six directions separates them and in
      whichever order they were set. */
  lemma AdjacentPairMesh(x: nat, y: nat, z: nat, d: Dir)
    requires InChunk(x, y, z) && Neighbour(x, y, z, d).Some?
    ensures var n := Neighbour(x, y, z, d).value;
      var m := RebuildIfDirty(Set(Set(NewChunk, x, y, z), n.0, n.1, n.2)).mesh;
      |m.positions| == 40 && |m.normals| == 40 && m.indexCount == 60
  {
    var n := Neighbour(x, y, z, d).value;
    var v := Set(Set(NewChunk, x, y, z), n.0, n.1, n.2).voxels;
    assert OnlyTwo(v, Index(x, y, z), Index(n.0, n.1, n.2));
    match d
    case Left => AdjacentPairFacesX(v, x, y, z);
    case Right => AdjacentPairFacesX(v, x - 1, y, z);
    case Top => AdjacentPairFacesY(v, x, y, z);
    case Bottom => AdjacentPairFacesY(v, x, y - 1, z);
    case Front => AdjacentPairFacesZ(v, x, y, z);
    case Back => AdjacentPairFacesZ(v, x, y, z - 1);
  }

  // The rebuild loop as the source writes it.

  lemma AppendNil(a: seq<Face>)
    ensures a + [] == a
  {
  }

  lemma Assoc(a: seq<Face>, b: seq<Face>, c: seq<Face>)
    ensures (a + b) + c == a + (b + c)
  {
  }

  /** The as-written streams grow face by face. */
  lemma AsWrittenSnoc(fs: seq<Face>, f: Face)
    ensures BuildAsWritten(fs + [f]) == AppendFaceAsWritten(BuildAsWritten(fs), f)
  {
    assert (fs + [f])[..|fs|] == fs;
  }

  /** The `AddFace` closure: four corners and normals, then six indices read
      off the vertex count taken after those pushes. */
  method AddFace(s: Streams, f: Face) returns (r: Streams)
    ensures r == AppendFaceAsWritten(s, f)
    ensures |r.positions| == |s.positions| + 4 && |r.indices| == |s.indices| + 6
    ensures r.indices[|s.indices| + 2] == |r.positions|
  {
    var positions, normals := s.positions, s.normals;
    var i: nat := 0;
    while i < 4
      invariant 0 <= i <= 4
      invariant |positions| == |s.positions| + i && positions[..|s.positions|] == s.positions
      invariant normals == s.normals + seq(i, _ => Normal(f.dir))
      invariant forall j | 0 <= j < i :: positions[|s.positions| + j] == Corner(f, j)
    {
      positions := positions + [Corner(f, i)];
      normals := normals + [Normal(f.dir)];
      i := i + 1;
    }
    assert positions == s.positions + [Corner(f, 0), Corner(f, 1), Corner(f, 2), Corner(f, 3)];
    var n := Normal(f.dir);
    assert normals == s.normals + [n, n, n, n];
    var vertexOffset := |positions|;
    var indices := s.indices + [vertexOffset + 2, vertexOffset + 1, vertexOffset,
                                vertexOffset, vertexOffset + 3, vertexOffset + 2];
    r := Streams(positions, normals, indices);
  }

  lemma TriedUnfold(v: Voxels, x: nat, y: nat, z: nat, k: nat)
    requires InChunk(x, y, z) && 0 < k <= DirCount
    ensures TriedFaces(v, x, y, z, k) == TriedFaces(v, x, y, z, k - 1) + TryDir(v, x, y, z, ScanDir(k - 1))
  {
  }

  /** Trying direction `ScanDir(k)` extends the faces tried so far by that
      direction's face when its test passes. */
  lemma TryStep(v: Voxels, x: nat, y: nat, z: nat, k: nat, pre: seq<Face>)
    requires InChunk(x, y, z) && k < DirCount
    ensures (pre + TriedFaces(v, x, y, z, k)) + TryDir(v, x, y, z, ScanDir(k)) == pre + TriedFaces(v, x, y, z, k + 1)
  {
    var t := TryDir(v, x, y, z, ScanDir(k));
    TriedUnfold(v, x, y, z, k + 1);
    Assoc(pre, TriedFaces(v, x, y, z, k), t);
  }

  /** One of the six `if (test) AddFace(...)` statements, for direction
      `ScanDir(k)`; `test` is the source's condition for that direction. */
  method TryFace(v: Voxels, x: nat, y: nat, z: nat, k: nat, test: bool,
                 faces: seq<Face>, cur: seq<Face>)
    returns (next: seq<Face>)
    requires InChunk(x, y, z) && k < DirCount
    requires test == FaceTest(v, x, y, z, ScanDir(k))
    requires cur == faces + TriedFaces(v, x, y, z, k)
    ensures next == faces + TriedFaces(v, x, y, z, k + 1)
  {
    if test {
      next := cur + [Face(x, y, z, ScanDir(k))];
    } else {
      next := cur;
      AppendNil(cur);
    }
    TryStep(v, x, y, z, k, faces);
  }

  /** The body of the innermost loop: skip an empty voxel, otherwise try its
      six faces in the source's order with the source's tests. */
  method EmitVoxel(v: Voxels, x: nat, y: nat, z: nat, faces: seq<Face>)
    returns (faces': seq<Face>)
    requires InChunk(x, y, z)
    ensures faces' == faces + VoxelFacesAt(v, x, y, z)
  {
    AppendNil(faces);
    if Empty(v, x, y, z) {
      return faces;
    }
    faces' := faces;
    faces' := TryFace(v, x, y, z, 0, z <= 0 || Empty(v, x, y, z - 1), faces, faces');
    faces' := TryFace(v, x, y, z, 1, z >= Dim - 1 || Empty(v, x, y, z + 1), faces, faces');
    faces' := TryFace(v, x, y, z, 2, x <= 0 || Empty(v, x - 1, y, z), faces, faces');
    faces' := TryFace(v, x, y, z, 3, x >= Dim - 1 || Empty(v, x + 1, y, z), faces, faces');
    faces' := TryFace(v, x, y, z, 4, y <= 0 || Empty(v, x, y - 1, z), faces, faces');
    faces' := TryFace(v, x, y, z, 5, y >= Dim - 1 || Empty(v, x, y + 1, z), faces, faces');
  }

  /** Visiting voxel (x, y, z) extends the scan by that voxel's faces. */
  lemma ScanStep(v: Voxels, x: nat, y: nat, z: nat, n: nat)
    requires InChunk(x, y, z) && n == Index(x, y, z)
    ensures ScanUpTo(v, n) + VoxelFacesAt(v, x, y, z) == ScanUpTo(v, n + 1)
  {
    CoordOfIndex(x, y, z);
  }

  lemma NothingScanned(v: Voxels)
    ensures ScanUpTo(v, 0) == []
  {
  }

  /** One pass of the innermost loop body: the scan so far, extended by the
      faces of voxel (x, y, z), is the scan up to and including that voxel. */
  method VisitVoxel(v: Voxels, x: nat, y: nat, z: nat, ghost n: nat, faces: seq<Face>)
    returns (faces': seq<Face>)
    requires InChunk(x, y, z) && n == Index(x, y, z)
    requires faces == ScanUpTo(v, n)
    ensures faces' == ScanUpTo(v, n + 1)
  {
    ScanStep(v, x, y, z, n);
    faces' := EmitVoxel(v, x, y, z, faces);
  }

  /** The innermost loop: the row of voxels at height `y` in layer `z`,
      whose flat positions run from `start = 256 z + 16 y` to the next row. */
  method ScanRow(v: Voxels, y: nat, z: nat, ghost start: nat, faces: seq<Face>)
    returns (faces': seq<Face>)
    requires y < 16 && z < 16 && start == 256 * z + 16 * y
    requires faces == ScanUpTo(v, start)
    ensures faces' == ScanUpTo(v, start + 16)
  {
    faces' := faces;
    var x: nat := 0;
    ghost var n: nat := start;
    while x < Dim
      invariant x <= 16 && n == start + x
      invariant faces' == ScanUpTo(v, n)
    {
      faces' := VisitVoxel(v, x, y, z, n, faces');
      x := x + 1;
      n := n + 1;
    }
  }

  /** The middle loop: the rows of layer `z`, whose flat positions run from
      `256 z` to the next layer. */
  method ScanLayer(v: Voxels, z: nat, faces: seq<Face>)
    returns (faces': seq<Face>)
    requires z < 16
    requires faces == ScanUpTo(v, 256 * z)
    ensures faces' == ScanUpTo(v, 256 * z + 256)
  {
    faces' := faces;
    var y: nat := 0;
    ghost var n: nat := 256 * z;
    while y < Dim
      invariant y <= 16 && n == 256 * z + 16 * y
      invariant faces' == ScanUpTo(v, n)
    {
      faces' := ScanRow(v, y, z, n, faces');
      y := y + 1;
      n := n + 16;
    }
  }

  /** The z/y/x loop nest of a rebuild: it emits exactly `Faces(v)`, the
      faces of occupied voxels not covered within the chunk, in scan order. */
  method ScanVoxels(v: Voxels) returns (faces: seq<Face>)
    ensures faces == Faces(v)
  {
    faces := [];
    NothingScanned(v);
    var z: nat := 0;
    ghost var n: nat := 0;
    while z < Dim
      invariant z <= 16 && n == 256 * z
      invariant faces == ScanUpTo(v, n)
    {
      faces := ScanLayer(v, z, faces);
      z := z + 1;
      n := n + 256;
    }
  }

  /** Feeds the emitted faces, in order, through `AddFace`. The source calls
      `AddFace` from inside the scan; since `AddFace` reads nothing but the
      streams built so far, feeding the faces afterwards in the same order
      fills the same streams. */
  method FillStreams(fs: seq<Face>) returns (s: Streams)
    ensures s == BuildAsWritten(fs)
  {
    s := Streams([], [], []);
    var i: nat := 0;
    while i < |fs|
      invariant i <= |fs|
      invariant s == BuildAsWritten(fs[..i])
    {
      AsWrittenSnoc(fs[..i], fs[i]);
      s := AddFace(s, fs[i]);
      assert fs[..i + 1] == fs[..i] + [fs[i]];
      i := i + 1;
    }
    assert fs[..|fs|] == fs;
  }

  /** The geometry pass of `RebuildIfDirty` as the source writes it: the
      streams hold four vertices per exposed face, but every quad's indices
      point one quad further on than its own vertices. */
  method RebuildStreams(v: Voxels) returns (faces: seq<Face>, s: Streams)
    ensures faces == Faces(v)
    ensures s == BuildAsWritten(faces)
    ensures |s.positions| == |s.normals| == 4 * |faces| && |s.indices| == 6 * |faces|
  {
    faces := ScanVoxels(v);
    s := FillStreams(faces);
  }
}
