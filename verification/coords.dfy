/**
 Global voxel addressing. Each axis of a global voxel position is an
 unsigned 32-bit integer whose low four bits (`VOXELS_PER_CHUNK`) are the
 offset inside the chunk (`blockX`) and whose upper 28 bits are the chunk
 index (`chunkX`). The source reads those fields through a union of
 bit-fields and builds chunk keys with `CHUNK_MASK`; on an unsigned value
 below 2^32 the low four bits are the remainder by 16, the upper bits are
 the quotient by 16, and masking with `~0xF` subtracts the remainder, which
 is how they are written here.
 */
module Coords {
  import opened Grid

  /** One more than the largest u32. */
  const Word: nat := 0x1_0000_0000

  /** An unsigned 32-bit value. */
  type U32 = n: nat | n < Word

  /** A global voxel position, one u32 per axis. */
  datatype VoxelCoord = VoxelCoord(x: U32, y: U32, z: U32)

  /** The 4-bit in-chunk offset of one axis (`blockX`). */
  function Block(a: U32): (b: nat)
    ensures b < Dim
  {
    a % Dim
  }

  /** The 28-bit chunk index of one axis (`chunkX`). */
  function ChunkIndex(a: U32): (c: nat)
    ensures c < 0x1000_0000
  {
    a / Dim
  }

  /** `a & CHUNK_MASK`: clear the offset bits. */
  function Align(a: U32): (r: U32)
    ensures Block(r) == 0 && ChunkIndex(r) == ChunkIndex(a)
    ensures r <= a < r + Dim
  {
    a - a % Dim
  }

  /** The in-chunk offset of a global voxel position, one axis at a time. */
  function Local(g: VoxelCoord): (r: (nat, nat, nat))
    ensures InChunk(r.0, r.1, r.2)
  {
    (Block(g.x), Block(g.y), Block(g.z))
  }

  /** A chunk's key: a voxel coordinate with all three offsets cleared. */
  datatype ChunkCoord = ChunkCoord(coord: VoxelCoord)

  /** The `ChunkCoord(const VoxelCoord&)` constructor: mask off the low four
      bits of every axis. The key is aligned on every axis and keeps the
      chunk indices of the position it was built from. */
  function ToChunkCoord(g: VoxelCoord): (c: ChunkCoord)
    ensures Aligned(c)
    ensures ChunkIndex(c.coord.x) == ChunkIndex(g.x)
    ensures ChunkIndex(c.coord.y) == ChunkIndex(g.y)
    ensures ChunkIndex(c.coord.z) == ChunkIndex(g.z)
  {
    ChunkCoord(VoxelCoord(Align(g.x), Align(g.y), Align(g.z)))
  }

  /** A key whose offset bits are all clear. */
  predicate Aligned(c: ChunkCoord) {
    Block(c.coord.x) == 0 && Block(c.coord.y) == 0 && Block(c.coord.z) == 0
  }

  /** `ChunkCoord::operator==`: the chunk indices agree on every axis. On
      aligned keys it is plain equality. */
  predicate SameChunk(a: ChunkCoord, b: ChunkCoord)
    ensures Aligned(a) && Aligned(b) ==> (SameChunk(a, b) <==> a == b)
  {
    && ChunkIndex(a.coord.x) == ChunkIndex(b.coord.x)
    && ChunkIndex(a.coord.y) == ChunkIndex(b.coord.y)
    && ChunkIndex(a.coord.z) == ChunkIndex(b.coord.z)
  }

  /** Two positions fall in the same chunk iff their chunk indices agree on
      every axis. */
  lemma SameChunkIff(g: VoxelCoord, h: VoxelCoord)
    ensures SameChunk(ToChunkCoord(g), ToChunkCoord(h)) <==>
      && ChunkIndex(g.x) == ChunkIndex(h.x)
      && ChunkIndex(g.y) == ChunkIndex(h.y)
      && ChunkIndex(g.z) == ChunkIndex(h.z)
  {
  }

  /** On chunk coordinates built from voxel positions, `operator==` is plain
      equality, so a map keyed by `ChunkCoord` holds one entry per chunk. */
  lemma SameChunkIsEquality(g: VoxelCoord, h: VoxelCoord)
    ensures SameChunk(ToChunkCoord(g), ToChunkCoord(h)) <==> ToChunkCoord(g) == ToChunkCoord(h)
  {
  }

  /** The chunk key and the offset put back together give the position. */
  lemma Recombine(g: VoxelCoord)
    ensures var c := ToChunkCoord(g).coord;
      && c.x + Local(g).0 == g.x
      && c.y + Local(g).1 == g.y
      && c.z + Local(g).2 == g.z
  {
  }

  /** The split into (chunk, offset) loses nothing: two positions with the
      same chunk and the same offset are the same position. */
  lemma SplitInjective(g: VoxelCoord, h: VoxelCoord)
    requires ToChunkCoord(g) == ToChunkCoord(h) && Local(g) == Local(h)
    ensures g == h
  {
    Recombine(g);
    Recombine(h);
  }
}
