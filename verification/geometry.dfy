/**
 The vertex, normal and index streams a rebuild hands to the GPU, derived
 from the emitted faces. Positions are kept in doubled voxel units so that
 they stay integral: with a voxel size of 1 and a voxel extent of 0.5, the
 voxel at (x, y, z) has its centre at (2x, 2y, 2z) and its corners at odd
 offsets of plus or minus 1 from it.
 */
module Geometry {
  import opened Mesher

  datatype Vec = Vec(x: int, y: int, z: int)

  function Add(a: Vec, b: Vec): Vec { Vec(a.x + b.x, a.y + b.y, a.z + b.z) }

  function Sub(a: Vec, b: Vec): Vec { Vec(a.x - b.x, a.y - b.y, a.z - b.z) }

  function Scale(k: int, a: Vec): Vec { Vec(k * a.x, k * a.y, k * a.z) }

  function Dot(a: Vec, b: Vec): int { a.x * b.x + a.y * b.y + a.z * b.z }

  function Cross(a: Vec, b: Vec): Vec {
    Vec(a.y * b.z - a.z * b.y, a.z * b.x - a.x * b.z, a.x * b.y - a.y * b.x)
  }

  /** The outward normal of a face: it points at the neighbour whose
      emptiness exposes the face. */
  function Normal(d: Dir): (n: Vec)
    ensures n == Vec(Step(d).0, Step(d).1, Step(d).2)
  {
    match d
    case Front => Vec(0, 0, 1)
    case Back => Vec(0, 0, -1)
    case Left => Vec(1, 0, 0)
    case Right => Vec(-1, 0, 0)
    case Bottom => Vec(0, -1, 0)
    case Top => Vec(0, 1, 0)
  }

  /** Component of `v` along the outward normal of face `d`. */
  function Along(v: Vec, d: Dir): int {
    match d
    case Front => v.z
    case Back => -v.z
    case Left => v.x
    case Right => -v.x
    case Bottom => -v.y
    case Top => v.y
  }

  /** A quarter turn about the outward normal of face `d`, in the same sense
      for every face (`QuarterTurnIsRotation`). */
  function QuarterTurn(d: Dir, v: Vec): (r: Vec)
    ensures Along(r, d) == Along(v, d)
  {
    match d
    case Front => Vec(v.y, -v.x, v.z)
    case Back => Vec(-v.y, v.x, v.z)
    case Left => Vec(v.x, v.z, -v.y)
    case Right => Vec(v.x, -v.z, v.y)
    case Bottom => Vec(v.z, v.y, -v.x)
    case Top => Vec(-v.z, v.y, v.x)
  }

  /** All six quarter turns are one and the same rotation,
      v |-> n (n . v) - n x v, taken with the face's own outward normal n. */
  lemma QuarterTurnIsRotation(d: Dir, v: Vec)
    ensures QuarterTurn(d, v) == Sub(Scale(Dot(Normal(d), v), Normal(d)), Cross(Normal(d), v))
  {
    match d
    case Back =>
    case Front =>
    case Right =>
    case Left =>
    case Bottom =>
    case Top =>
  }

  /** The two triangles of a quad, as offsets from the quad's first vertex. */
  const QuadPattern: seq<nat> := [2, 1, 0, 0, 3, 2]

  /** The four corners of a face around the voxel centre, in the order the
      source lists them. The source names the cube corners by front/back
      (+z/-z), top/bottom (+y/-y) and left/right (-x/+x); in those names the
      faces are front = ftl ftr fbr fbl, back = btr btl bbl bbr,
      left = ftr btr bbr fbr, right = btl ftl fbl bbl,
      bottom = fbl fbr bbr bbl, top = ftl btl btr ftr.
      `CornersWind` shows that all six faces list their corners, and hence
      wind both `QuadPattern` triangles, in the same rotational sense about
      their outward normal. */
  function Corners(d: Dir): (r: seq<Vec>)
    ensures |r| == 4
  {
    match d
    case Front => [Vec(-1, 1, 1), Vec(1, 1, 1), Vec(1, -1, 1), Vec(-1, -1, 1)]
    case Back => [Vec(1, 1, -1), Vec(-1, 1, -1), Vec(-1, -1, -1), Vec(1, -1, -1)]
    case Left => [Vec(1, 1, 1), Vec(1, 1, -1), Vec(1, -1, -1), Vec(1, -1, 1)]
    case Right => [Vec(-1, 1, -1), Vec(-1, 1, 1), Vec(-1, -1, 1), Vec(-1, -1, -1)]
    case Bottom => [Vec(-1, -1, 1), Vec(1, -1, 1), Vec(1, -1, -1), Vec(-1, -1, -1)]
    case Top => [Vec(-1, 1, 1), Vec(-1, 1, -1), Vec(1, 1, -1), Vec(1, 1, 1)]
  }

  /** Every corner of face `d` lies in the face's outward plane, one half
      voxel (one doubled unit) out from the centre, and each corner is the
      quarter turn of the one before it. */
  lemma CornersWind(d: Dir)
    ensures Along(Corners(d)[0], d) == 1 && Along(Corners(d)[1], d) == 1
    ensures Along(Corners(d)[2], d) == 1 && Along(Corners(d)[3], d) == 1
    ensures QuarterTurn(d, Corners(d)[0]) == Corners(d)[1]
    ensures QuarterTurn(d, Corners(d)[1]) == Corners(d)[2]
    ensures QuarterTurn(d, Corners(d)[2]) == Corners(d)[3]
    ensures QuarterTurn(d, Corners(d)[3]) == Corners(d)[0]
  {
    match d
    case Back =>
    case Front =>
    case Right =>
    case Left =>
    case Bottom =>
    case Top =>
  }

  /** Corner `j` of face `f`, offset by the voxel's position. */
  function Corner(f: Face, j: nat): Vec
    requires j < 4
  {
    Add(Corners(f.dir)[j], Vec(2 * f.x, 2 * f.y, 2 * f.z))
  }

  /** The CPU-side streams a rebuild fills before uploading them. */
  datatype Streams = Streams(positions: seq<Vec>, normals: seq<Vec>, indices: seq<nat>)

  /** What a chunk keeps of its uploaded mesh: the uploaded streams and the
      recorded index count. The default mesh holds nothing. */
  datatype Mesh = Mesh(positions: seq<Vec>, normals: seq<Vec>, indices: seq<nat>, indexCount: nat)

  const EmptyMesh := Mesh([], [], [], 0)

  /** Six indices forming the quad whose first vertex is `base`. */
  function QuadIndices(base: nat): (r: seq<nat>)
    ensures |r| == 6
    ensures forall k | 0 <= k < 6 :: r[k] == base + QuadPattern[k]
  {
    [base + 2, base + 1, base, base, base + 3, base + 2]
  }

  /** The index loop of `CreateCubeMesh`: for each of the six faces of the
      unit cube, whose four vertices start at `i`, two triangles. Every face
      uses its own vertices and no index reaches past the 24 vertices. */
  method CubeIndices() returns (idx: seq<nat>)
    ensures |idx| == 36
    ensures QuadLayout(idx, 0)
    ensures forall i | 0 <= i < |idx| :: idx[i] < 24
  {
    idx := [];
    var i: nat := 0;
    while i < 6 * 4
      invariant i % 4 == 0 && i <= 24
      invariant 4 * |idx| == 6 * i
      invariant QuadLayout(idx, 0)
    {
      PushKeepsQuads(idx, 0, i / 4);
      assert QuadIndices(i) == [i + 2, i + 1, i, i, i + 3, i + 2];
      idx := idx + [i + 2, i + 1, i, i, i + 3, i + 2];
      i := i + 4;
    }
    forall k | 0 <= k < |idx| ensures idx[k] < 24 {
      assert k / 6 < 6;
      assert QuadPattern[k % 6] <= 3;
    }
  }

  /** Pushes the four corners and normals of `f`, then six indices relative to
      `base`. */
  function PushFace(s: Streams, f: Face, base: nat): Streams {
    var n := Normal(f.dir);
    Streams(s.positions + [Corner(f, 0), Corner(f, 1), Corner(f, 2), Corner(f, 3)],
            s.normals + [n, n, n, n],
            s.indices + QuadIndices(base))
  }

  /** Adding a face with the quad based at the first vertex the face pushed. */
  function AppendFace(s: Streams, f: Face): Streams {
    PushFace(s, f, |s.positions|)
  }

  /** Adding a face as the source writes it: the base is read after the four
      pushes, so it is one quad past the face's own vertices. */
  function AppendFaceAsWritten(s: Streams, f: Face): Streams {
    PushFace(s, f, |s.positions| + 4)
  }

  /** Vertex `i` of the stream built from `fs` belongs to face `i / 4`. */
  predicate VerticesOf(fs: seq<Face>, s: Streams) {
    && |s.positions| == 4 * |fs|
    && |s.normals| == 4 * |fs|
    && |s.indices| == 6 * |fs|
    && (forall i | 0 <= i < |s.positions| :: s.positions[i] == Corner(fs[i / 4], i % 4))
    && (forall i | 0 <= i < |s.normals| :: s.normals[i] == Normal(fs[i / 4].dir))
  }

  /** Index `i` belongs to quad `i / 6`, whose first vertex is `4 * (i / 6) + shift`. */
  predicate QuadLayout(idx: seq<nat>, shift: nat) {
    forall i | 0 <= i < |idx| :: idx[i] == 4 * (i / 6) + shift + QuadPattern[i % 6]
  }

  lemma PushKeepsVertices(fs: seq<Face>, s: Streams, f: Face, base: nat)
    requires VerticesOf(fs, s)
    ensures VerticesOf(fs + [f], PushFace(s, f, base))
  {
    var fs', s' := fs + [f], PushFace(s, f, base);
    forall i | 0 <= i < |s'.positions| ensures s'.positions[i] == Corner(fs'[i / 4], i % 4) {
      if i < |s.positions| {
        assert s'.positions[i] == s.positions[i];
      } else {
        assert i / 4 == |fs| && i % 4 == i - |s.positions|;
      }
    }
    forall i | 0 <= i < |s'.normals| ensures s'.normals[i] == Normal(fs'[i / 4].dir) {
      if i < |s.normals| {
        assert s'.normals[i] == s.normals[i];
      } else {
        assert i / 4 == |fs|;
      }
    }
  }

  lemma PushKeepsQuads(idx: seq<nat>, shift: nat, n: nat)
    requires |idx| == 6 * n && QuadLayout(idx, shift)
    ensures QuadLayout(idx + QuadIndices(4 * n + shift), shift)
  {
    var idx' := idx + QuadIndices(4 * n + shift);
    forall i | 0 <= i < |idx'| ensures idx'[i] == 4 * (i / 6) + shift + QuadPattern[i % 6] {
      if i < |idx| {
        assert idx'[i] == idx[i];
      } else {
        assert i / 6 == n && i % 6 == i - 6 * n;
      }
    }
  }

  /** The streams built from `fs`, face by face, each quad over its own
      four vertices. */
  function Build(fs: seq<Face>): (s: Streams)
    ensures |s.positions| == 4 * |fs| && |s.normals| == 4 * |fs| && |s.indices| == 6 * |fs|
  {
    if fs == [] then Streams([], [], [])
    else AppendFace(Build(fs[..|fs| - 1]), fs[|fs| - 1])
  }

  /** Face `k` owns vertices 4k .. 4k+3 (its corners, each with the face's
      normal) and indices 6k .. 6k+5, one quad over exactly its own
      vertices. */
  lemma {:induction false} BuildLayout(fs: seq<Face>)
    ensures VerticesOf(fs, Build(fs))
    ensures QuadLayout(Build(fs).indices, 0)
  {
    if fs != [] {
      var prefix, last := fs[..|fs| - 1], fs[|fs| - 1];
      var s := Build(prefix);
      BuildLayout(prefix);
      PushKeepsVertices(prefix, s, last, |s.positions|);
      PushKeepsQuads(s.indices, 0, |prefix|);
      assert prefix + [last] == fs;
    }
  }

  /** Every index of the corrected streams names an existing vertex. */
  lemma BuildIndicesInRange(fs: seq<Face>)
    ensures forall i | 0 <= i < |Build(fs).indices| :: Build(fs).indices[i] < |Build(fs).positions|
  {
    var s := Build(fs);
    BuildLayout(fs);
    forall i | 0 <= i < |s.indices| ensures s.indices[i] < |s.positions| {
      assert i / 6 < |fs|;
      assert QuadPattern[i % 6] <= 3;
    }
  }

  /** The streams the source builds from `fs`: every quad based one face
      further on than its own vertices. */
  function BuildAsWritten(fs: seq<Face>): (s: Streams)
    ensures |s.positions| == 4 * |fs| && |s.normals| == 4 * |fs| && |s.indices| == 6 * |fs|
  {
    if fs == [] then Streams([], [], [])
    else AppendFaceAsWritten(BuildAsWritten(fs[..|fs| - 1]), fs[|fs| - 1])
  }

  /** The as-written streams have the same vertices, and every quad shifted
      up by four. */
  lemma {:induction false} AsWrittenLayout(fs: seq<Face>)
    ensures VerticesOf(fs, BuildAsWritten(fs))
    ensures QuadLayout(BuildAsWritten(fs).indices, 4)
  {
    if fs != [] {
      var prefix, last := fs[..|fs| - 1], fs[|fs| - 1];
      var s := BuildAsWritten(prefix);
      AsWrittenLayout(prefix);
      PushKeepsVertices(prefix, s, last, |s.positions| + 4);
      PushKeepsQuads(s.indices, 4, |prefix|);
      assert prefix + [last] == fs;
    }
  }

  /** The mesh recorded after uploading the streams of `fs`. */
  function MeshOf(fs: seq<Face>): (m: Mesh)
    ensures |m.positions| == 4 * |fs| && |m.normals| == 4 * |fs|
    ensures m.indexCount == |m.indices| == 6 * |fs|
  {
    var s := Build(fs);
    Mesh(s.positions, s.normals, s.indices, |s.indices|)
  }

  /** The as-written streams differ from the corrected ones only in the
      index stream, which is shifted up by one quad (four vertices). */
  lemma AsWrittenShiftsIndices(fs: seq<Face>)
    ensures BuildAsWritten(fs).positions == Build(fs).positions
    ensures BuildAsWritten(fs).normals == Build(fs).normals
    ensures |BuildAsWritten(fs).indices| == |Build(fs).indices|
    ensures forall i | 0 <= i < |Build(fs).indices| ::
      BuildAsWritten(fs).indices[i] == Build(fs).indices[i] + 4
  {
    var a, b := BuildAsWritten(fs), Build(fs);
    BuildLayout(fs);
    AsWrittenLayout(fs);
    assert a.positions == b.positions;
    assert a.normals == b.normals;
  }

  /** As written, the last face's quad reads past the end of the vertex
      stream: its fourth corner index is three beyond the last vertex slot. */
  lemma AsWrittenOverrunsVertices(fs: seq<Face>)
    requires fs != []
    ensures BuildAsWritten(fs).indices[6 * |fs| - 2] == |BuildAsWritten(fs).positions| + 3
  {
    var s := BuildAsWritten(fs);
    AsWrittenLayout(fs);
    var i := 6 * |fs| - 2;
    assert i / 6 == |fs| - 1 && i % 6 == 4;
  }
}
