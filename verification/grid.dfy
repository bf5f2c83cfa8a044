/**
 The occupancy grid of one chunk: `Chunk::dim` voxels per edge, stored as a
 flat bitset addressed by `Index(x, y, z) = z * dim * dim + y * dim + x`.
 A bit is modelled as a `bool`; a set bit means the voxel is occupied.
 */
module Grid {

  /** Edge length of a chunk, in voxels. */
  const Dim: nat := 16

  /** Number of occupancy bits in a chunk (Dim cubed). */
  const Volume: nat := 4096

  /** The bitset of one chunk: exactly `Volume` bits. */
  type Voxels = s: seq<bool> | |s| == Volume witness Clear(Volume)

  /** A default-constructed bitset: every voxel empty. */
  const NoVoxels: Voxels := Clear(Volume)

  /** `n` clear bits. */
  function Clear(n: nat): (s: seq<bool>)
    ensures |s| == n && forall i | 0 <= i < n :: !s[i]
  {
    if n == 0 then [] else Clear(n - 1) + [false]
  }

  /** True when (x, y, z) is a local offset inside the chunk. */
  predicate InChunk(x: nat, y: nat, z: nat) {
    x < Dim && y < Dim && z < Dim
  }

  /** Flat bit position of a local offset, z-major then y then x. The
      products `dim * dim` and `dim` are written as the literals 256 and 16,
      which keeps the arithmetic linear for the solver. */
  function Index(x: nat, y: nat, z: nat): (i: nat)
    ensures InChunk(x, y, z) ==> i < Volume
  {
    z * 256 + y * 16 + x
  }

  /** The local offset stored at flat bit position `i`: the inverse of `Index`.
      It counts positions the way the z/y/x loop nest visits them, so that
      position `i` is the offset after `i` steps of an odometer whose x digit
      turns fastest. */
  function CoordOf(i: nat): (r: (nat, nat, nat))
    requires i < Volume
    ensures InChunk(r.0, r.1, r.2)
    ensures Index(r.0, r.1, r.2) == i
  {
    if i == 0 then (0, 0, 0)
    else
      var p := CoordOf(i - 1);
      if p.0 < Dim - 1 then (p.0 + 1, p.1, p.2)
      else if p.1 < Dim - 1 then (0, p.1 + 1, p.2)
      else (0, 0, p.2 + 1)
  }

  /** `Index` is one-to-one on local offsets, so it is a bijection onto [0, Volume). */
  lemma IndexInjective(x: nat, y: nat, z: nat, x': nat, y': nat, z': nat)
    requires InChunk(x, y, z) && InChunk(x', y', z')
    requires Index(x, y, z) == Index(x', y', z')
    ensures x == x' && y == y' && z == z'
  {
  }

  /** Reading back the offset of an index gives the offset again. */
  lemma CoordOfIndex(x: nat, y: nat, z: nat)
    requires InChunk(x, y, z)
    ensures CoordOf(Index(x, y, z)) == (x, y, z)
  {
    var (a, b, c) := CoordOf(Index(x, y, z));
    IndexInjective(a, b, c, x, y, z);
  }

  /** `Chunk::Empty`: the bit at the offset's flat index is clear. */
  predicate Empty(v: Voxels, x: nat, y: nat, z: nat)
    requires Index(x, y, z) < Volume
  {
    !v[Index(x, y, z)]
  }
}
