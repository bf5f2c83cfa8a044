/**
 The world: a map from chunk keys to chunks. Voxel edits go to the chunk the
 global position falls in, creating that chunk (empty and dirty) on first
 touch, the way `operator[]` of the source's `unordered_map` does. Once a
 frame every chunk rebuilds its mesh if dirty.
 */
module World {
  import opened Grid
  import opened Mesher
  import opened Geometry
  import opened Chunks
  import opened Coords

  datatype VoxelWorld = VoxelWorld(chunks: map<ChunkCoord, Chunk>)

  /** The world before generation: no chunks. */
  const EmptyWorld := VoxelWorld(map[])

  /** The key of the chunk a position falls in. */
  function KeyOf(g: VoxelCoord): ChunkCoord {
    ToChunkCoord(g)
  }

  /** The voxel at global position `g` is occupied: its chunk exists and the
      chunk's bit at the local offset is set. */
  predicate Occupied(w: VoxelWorld, g: VoxelCoord) {
    var l := Local(g);
    KeyOf(g) in w.chunks && !Empty(w.chunks[KeyOf(g)].voxels, l.0, l.1, l.2)
  }

  /** Every chunk of the world is consistent (clean chunks hold the mesh of
      their voxels). */
  predicate AllConsistent(w: VoxelWorld) {
    forall k | k in w.chunks :: Consistent(w.chunks[k])
  }

  /** `VoxelWorld::GetChunk`: the chunk under the position's key, inserted
      as a fresh chunk when absent. Returns the updated world and the chunk. */
  function GetChunk(w: VoxelWorld, g: VoxelCoord): (r: (VoxelWorld, Chunk))
    ensures r.0.chunks.Keys == w.chunks.Keys + {KeyOf(g)}
    ensures KeyOf(g) in r.0.chunks && r.0.chunks[KeyOf(g)] == r.1
    ensures KeyOf(g) in w.chunks ==> r.0 == w
    ensures KeyOf(g) !in w.chunks ==> r.1 == NewChunk
    ensures forall k | k in w.chunks :: k in r.0.chunks && r.0.chunks[k] == w.chunks[k]
  {
    var key := KeyOf(g);
    if key in w.chunks then (w, w.chunks[key])
    else (VoxelWorld(w.chunks[key := NewChunk]), NewChunk)
  }

  /** Store `c` under the key of `g`. */
  function Put(w: VoxelWorld, g: VoxelCoord, c: Chunk): VoxelWorld {
    VoxelWorld(w.chunks[KeyOf(g) := c])
  }

  /** `VoxelWorld::AddVoxel`: set the bit at `g`'s offset in `g`'s chunk. */
  function AddVoxel(w: VoxelWorld, g: VoxelCoord): (r: VoxelWorld)
    ensures Occupied(r, g)
    ensures r.chunks.Keys == w.chunks.Keys + {KeyOf(g)}
    ensures forall k | k in w.chunks && k != KeyOf(g) :: r.chunks[k] == w.chunks[k]
    ensures r.chunks[KeyOf(g)].dirty
  {
    var got := GetChunk(w, g);
    var l := Local(g);
    Put(got.0, g, Set(got.1, l.0, l.1, l.2))
  }

  /** `VoxelWorld::RemoveVoxel`: clear the bit at `g`'s offset in `g`'s
      chunk. Like `AddVoxel` it goes through `GetChunk`, so removing from a
      chunk that does not exist yet creates it. */
  function RemoveVoxel(w: VoxelWorld, g: VoxelCoord): (r: VoxelWorld)
    ensures !Occupied(r, g)
    ensures r.chunks.Keys == w.chunks.Keys + {KeyOf(g)}
    ensures forall k | k in w.chunks && k != KeyOf(g) :: r.chunks[k] == w.chunks[k]
    ensures r.chunks[KeyOf(g)].dirty
  {
    var got := GetChunk(w, g);
    var l := Local(g);
    Put(got.0, g, Remove(got.1, l.0, l.1, l.2))
  }

  /** Two different positions in the same chunk have different flat bit
      positions. */
  lemma DistinctBits(g: VoxelCoord, h: VoxelCoord)
    requires KeyOf(g) == KeyOf(h) && g != h
    ensures Index(Local(g).0, Local(g).1, Local(g).2) != Index(Local(h).0, Local(h).1, Local(h).2)
  {
    var (x, y, z) := Local(g);
    var (x', y', z') := Local(h);
    if Index(x, y, z) == Index(x', y', z') {
      IndexInjective(x, y, z, x', y', z');
      SplitInjective(g, h);
    }
  }

  /** Adding a voxel changes the occupancy of that position only. */
  lemma AddVoxelFrame(w: VoxelWorld, g: VoxelCoord, h: VoxelCoord)
    requires h != g
    ensures Occupied(AddVoxel(w, g), h) == Occupied(w, h)
  {
    if KeyOf(h) == KeyOf(g) {
      DistinctBits(g, h);
    }
  }

  /** Removing a voxel changes the occupancy of that position only. */
  lemma RemoveVoxelFrame(w: VoxelWorld, g: VoxelCoord, h: VoxelCoord)
    requires h != g
    ensures Occupied(RemoveVoxel(w, g), h) == Occupied(w, h)
  {
    if KeyOf(h) == KeyOf(g) {
      DistinctBits(g, h);
    }
  }

  /** Removing a voxel from a chunk that does not exist creates that chunk,
      with no voxels and marked dirty, and occupies nothing. */
  lemma RemoveFromMissingChunk(w: VoxelWorld, g: VoxelCoord)
    requires KeyOf(g) !in w.chunks
    ensures var r := RemoveVoxel(w, g);
      && KeyOf(g) in r.chunks && KeyOf(g) !in w.chunks
      && r.chunks[KeyOf(g)].voxels == NoVoxels
      && r.chunks[KeyOf(g)].dirty
  {
    var l := Local(g);
    var c := RemoveVoxel(w, g).chunks[KeyOf(g)];
    assert c.voxels == NoVoxels[Index(l.0, l.1, l.2) := false];
  }

  /** Adding a voxel to an empty position and removing it again restores the
      occupancy of every position. */
  lemma AddThenRemove(w: VoxelWorld, g: VoxelCoord, h: VoxelCoord)
    requires !Occupied(w, g)
    ensures Occupied(RemoveVoxel(AddVoxel(w, g), g), h) == Occupied(w, h)
  {
    if h != g {
      AddVoxelFrame(w, g, h);
      RemoveVoxelFrame(AddVoxel(w, g), g, h);
    }
  }

  /** Edits keep every chunk consistent: the edited chunk becomes dirty and
      the others are untouched. */
  lemma EditsKeepConsistent(w: VoxelWorld, g: VoxelCoord)
    requires AllConsistent(w)
    ensures AllConsistent(AddVoxel(w, g))
    ensures AllConsistent(RemoveVoxel(w, g))
  {
    var a := AddVoxel(w, g);
    var r := RemoveVoxel(w, g);
    forall k | k in a.chunks ensures Consistent(a.chunks[k]) {
      if k != KeyOf(g) {
        assert a.chunks[k] == w.chunks[k];
      }
    }
    forall k | k in r.chunks ensures Consistent(r.chunks[k]) {
      if k != KeyOf(g) {
        assert r.chunks[k] == w.chunks[k];
      }
    }
  }

  /** The per-frame sweep: every chunk rebuilds itself if dirty. */
  function RebuildAll(w: VoxelWorld): (r: VoxelWorld)
    ensures r.chunks.Keys == w.chunks.Keys
    ensures forall k | k in r.chunks :: !r.chunks[k].dirty
    ensures forall k | k in r.chunks :: r.chunks[k].voxels == w.chunks[k].voxels
  {
    VoxelWorld(map k | k in w.chunks :: RebuildIfDirty(w.chunks[k]))
  }

  /** The sweep changes no voxel, and leaves every chunk with the mesh of its
      voxels when the world was consistent before. */
  lemma RebuildAllSpec(w: VoxelWorld)
    ensures forall g :: Occupied(RebuildAll(w), g) == Occupied(w, g)
    ensures AllConsistent(w) ==> AllConsistent(RebuildAll(w))
    ensures AllConsistent(w) ==>
      forall k | k in w.chunks :: RebuildAll(w).chunks[k].mesh == MeshOf(Faces(w.chunks[k].voxels))
  {
  }

  /** A second sweep with no edit in between changes nothing. */
  lemma RebuildAllIdempotent(w: VoxelWorld)
    ensures RebuildAll(RebuildAll(w)) == RebuildAll(w)
  {
    var r := RebuildAll(w);
    forall k | k in r.chunks
      ensures RebuildAll(r).chunks[k] == r.chunks[k]
    {
      RebuildIdempotent(w.chunks[k]);
    }
  }

  /** A world in which every chunk of `w` has been rebuilt is the sweep of
      `w`. */
  lemma SweptEverything(w: VoxelWorld, r: VoxelWorld)
    requires r.chunks.Keys == w.chunks.Keys
    requires forall k | k in w.chunks :: r.chunks[k] == RebuildIfDirty(w.chunks[k])
    ensures r == RebuildAll(w)
  {
    assert r.chunks == RebuildAll(w).chunks;
  }

  /** The sweep as the source writes it: visit the chunks one at a time, in
      whatever order the hash map yields them, and rebuild each. The result
      does not depend on the order. */
  method SweepChunks(w: VoxelWorld) returns (r: VoxelWorld)
    ensures r == RebuildAll(w)
  {
    r := w;
    var todo := w.chunks.Keys;
    while todo != {}
      invariant todo <= w.chunks.Keys && r.chunks.Keys == w.chunks.Keys
      invariant forall k | k in todo :: r.chunks[k] == w.chunks[k]
      invariant forall k | k in w.chunks && k !in todo :: r.chunks[k] == RebuildIfDirty(w.chunks[k])
      decreases |todo|
    {
      var k :| k in todo;
      r := VoxelWorld(r.chunks[k := RebuildIfDirty(r.chunks[k])]);
      todo := todo - {k};
    }
    SweptEverything(w, r);
  }

  /** The generator fills a square of `Extent` by `Extent` columns. */
  const Extent: nat := 128

  /** Column heights are `|sin(0.2 x)| * 16` truncated, so at most 16. */
  const MaxHeight: nat := 16

  /** One height per column index x, each within the generator's range. */
  predicate ValidHeights(heights: seq<nat>) {
    |heights| == Extent && forall i | 0 <= i < Extent :: heights[i] <= MaxHeight
  }

  /** The terrain the generator builds: at every (x, z) below `Extent`, a
      column of `heights[x]` voxels standing on y = 0. */
  predicate InTerrain(heights: seq<nat>, g: VoxelCoord)
    requires |heights| == Extent
  {
    g.x < Extent && g.z < Extent && g.y < heights[g.x]
  }

  /** The generator has written `g` before it reaches row z, column x,
      height h (rows outermost, heights innermost). */
  predicate Before(g: VoxelCoord, z: nat, x: nat, h: nat) {
    g.z < z || (g.z == z && (g.x < x || (g.x == x && g.y < h)))
  }

  /** Every chunk the generator can touch lies in the bottom layer of the
      `Extent` square. */
  predicate KeysInSquare(w: VoxelWorld) {
    forall k | k in w.chunks :: k.coord.y == 0 && k.coord.x < Extent && k.coord.z < Extent
  }

  /** The state of the world when the generator reaches (z, x, h): exactly
      the terrain voxels written so far are occupied. */
  ghost predicate Reached(w: VoxelWorld, heights: seq<nat>, z: nat, x: nat, h: nat)
    requires ValidHeights(heights)
  {
    && AllConsistent(w)
    && KeysInSquare(w)
    && forall g :: Occupied(w, g) <==> InTerrain(heights, g) && Before(g, z, x, h)
  }

  /** One `AddVoxel(x, h, y)` call of the generator moves it one step up
      the column. */
  lemma GenerateStep(w: VoxelWorld, heights: seq<nat>, z: nat, x: nat, h: nat)
    requires ValidHeights(heights) && z < Extent && x < Extent && h < heights[x]
    requires Reached(w, heights, z, x, h)
    ensures Reached(AddVoxel(w, VoxelCoord(x, h, z)), heights, z, x, h + 1)
  {
    var g := VoxelCoord(x, h, z);
    var w' := AddVoxel(w, g);
    EditsKeepConsistent(w, g);
    assert KeysInSquare(w');
    forall g' ensures Occupied(w', g') <==> InTerrain(heights, g') && Before(g', z, x, h + 1) {
      if g' != g {
        AddVoxelFrame(w, g, g');
      }
    }
  }

  /** The innermost loop of the generator: one column of voxels. */
  method FillColumn(w: VoxelWorld, heights: seq<nat>, z: nat, x: nat) returns (w': VoxelWorld)
    requires ValidHeights(heights) && z < Extent && x < Extent
    requires Reached(w, heights, z, x, 0)
    ensures Reached(w', heights, z, x + 1, 0)
  {
    w' := w;
    var h: nat := 0;
    while h < heights[x]
      invariant h <= heights[x]
      invariant Reached(w', heights, z, x, h)
    {
      GenerateStep(w', heights, z, x, h);
      w' := AddVoxel(w', VoxelCoord(x, h, z));
      h := h + 1;
    }
  }

  /** The middle loop of the generator: one row of columns. */
  method FillRow(w: VoxelWorld, heights: seq<nat>, z: nat) returns (w': VoxelWorld)
    requires ValidHeights(heights) && z < Extent
    requires Reached(w, heights, z, 0, 0)
    ensures Reached(w', heights, z + 1, 0, 0)
  {
    w' := w;
    var x: nat := 0;
    while x < Extent
      invariant x <= Extent
      invariant Reached(w', heights, z, x, 0)
    {
      w' := FillColumn(w', heights, z, x);
      x := x + 1;
    }
  }

  /** The world generation loop of `main`: for y and x below 128, add the
      voxels (x, h, y) for h below the column height. The resulting world
      holds exactly the terrain, every chunk in the bottom layer. */
  method Generate(heights: seq<nat>) returns (w: VoxelWorld)
    requires ValidHeights(heights)
    ensures forall g :: Occupied(w, g) <==> InTerrain(heights, g)
    ensures AllConsistent(w) && KeysInSquare(w)
  {
    w := EmptyWorld;
    var z: nat := 0;
    while z < Extent
      invariant z <= Extent
      invariant Reached(w, heights, z, 0, 0)
    {
      w := FillRow(w, heights, z);
      z := z + 1;
    }
  }
}
