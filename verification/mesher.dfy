/**
 The face-culling mesher of `Chunk::RebuildIfDirty`, abstracted to the
 sequence of faces it emits. Voxels are scanned z-major, then y, then x;
 for each occupied voxel the six faces are tried back, front, right, left,
 bottom, top, and a face is emitted when the voxel sits on the chunk
 boundary in that direction or its in-chunk neighbour there is empty.
 Neighbouring chunks are never consulted.
 */
module Mesher {
  import opened Grid

  /** The six faces of a voxel, declared in the order the mesher tries them.
      Right is the -x face and Left the +x face, as the source names them. */
  datatype Dir = Back | Front | Right | Left | Bottom | Top

  /** Number of faces of a voxel. */
  const DirCount: nat := 6

  /** The `k`-th direction in the order the mesher tries them. */
  function ScanDir(k: nat): Dir
    requires k < DirCount
  {
    if k == 0 then Back
    else if k == 1 then Front
    else if k == 2 then Right
    else if k == 3 then Left
    else if k == 4 then Bottom
    else Top
  }

  /** Position of a direction in the scan: the inverse of `ScanDir`. */
  function Ord(d: Dir): (k: nat)
    ensures k < DirCount && ScanDir(k) == d
  {
    match d
    case Back => 0
    case Front => 1
    case Right => 2
    case Left => 3
    case Bottom => 4
    case Top => 5
  }

  /** One emitted quad: the face of voxel (x, y, z) that looks towards `dir`. */
  datatype Face = Face(x: nat, y: nat, z: nat, dir: Dir)

  datatype Option<T> = None | Some(value: T)

  /** Unit step from a voxel to the neighbour that covers its `d` face. */
  function Step(d: Dir): (int, int, int) {
    match d
    case Back => (0, 0, -1)
    case Front => (0, 0, 1)
    case Right => (-1, 0, 0)
    case Left => (1, 0, 0)
    case Bottom => (0, -1, 0)
    case Top => (0, 1, 0)
  }

  /** The in-chunk neighbour in direction `d`, or None when the voxel lies on
      the chunk boundary in that direction. */
  function Neighbour(x: nat, y: nat, z: nat, d: Dir): (r: Option<(nat, nat, nat)>)
    requires InChunk(x, y, z)
    ensures r.Some? ==> InChunk(r.value.0, r.value.1, r.value.2)
    ensures r.Some? ==> r.value != (x, y, z)
  {
    var (dx, dy, dz) := Step(d);
    if 0 <= x + dx < Dim && 0 <= y + dy < Dim && 0 <= z + dz < Dim
    then Some((x + dx, y + dy, z + dz))
    else None
  }

  /** Nothing in the same chunk covers the `d` face of (x, y, z): it lies on
      the chunk boundary in direction `d`, or the neighbour there is empty. */
  predicate Exposed(v: Voxels, x: nat, y: nat, z: nat, d: Dir)
    requires InChunk(x, y, z)
  {
    match Neighbour(x, y, z, d)
    case None => true
    case Some(n) => Empty(v, n.0, n.1, n.2)
  }

  /** The emission rule stated independently of the scan: an occupied voxel
      shows its `dir` face exactly when nothing in the same chunk covers it. */
  predicate Emitted(v: Voxels, f: Face) {
    && InChunk(f.x, f.y, f.z)
    && !Empty(v, f.x, f.y, f.z)
    && Exposed(v, f.x, f.y, f.z, f.dir)
  }

  /** The per-face test as the mesher writes it: a boundary check, and only
      when that fails, a look at the neighbour's bit. */
  function FaceTest(v: Voxels, x: nat, y: nat, z: nat, d: Dir): bool
    requires InChunk(x, y, z)
  {
    match d
    case Back => z <= 0 || Empty(v, x, y, z - 1)
    case Front => z >= Dim - 1 || Empty(v, x, y, z + 1)
    case Right => x <= 0 || Empty(v, x - 1, y, z)
    case Left => x >= Dim - 1 || Empty(v, x + 1, y, z)
    case Bottom => y <= 0 || Empty(v, x, y - 1, z)
    case Top => y >= Dim - 1 || Empty(v, x, y + 1, z)
  }

  /** The written-out test agrees with the emission rule in every direction. */
  lemma FaceTestExposed(v: Voxels, x: nat, y: nat, z: nat)
    requires InChunk(x, y, z)
    ensures forall d :: FaceTest(v, x, y, z, d) <==> Exposed(v, x, y, z, d)
  {
  }

  /** The face in direction `d` when its test passes, nothing otherwise. */
  function TryDir(v: Voxels, x: nat, y: nat, z: nat, d: Dir): seq<Face>
    requires InChunk(x, y, z)
  {
    if FaceTest(v, x, y, z, d) then [Face(x, y, z, d)] else []
  }

  /** Faces an occupied voxel emits while trying its first `k` directions. */
  function TriedFaces(v: Voxels, x: nat, y: nat, z: nat, k: nat): seq<Face>
    requires InChunk(x, y, z) && k <= DirCount
  {
    if k == 0 then [] else TriedFaces(v, x, y, z, k - 1) + TryDir(v, x, y, z, ScanDir(k - 1))
  }

  /** Faces of the voxel (x, y, z): nothing when it is empty. */
  function VoxelFacesAt(v: Voxels, x: nat, y: nat, z: nat): seq<Face>
    requires InChunk(x, y, z)
  {
    if Empty(v, x, y, z) then [] else TriedFaces(v, x, y, z, DirCount)
  }

  /** Faces of the voxel stored at flat bit position `i`. */
  function FacesAtIndex(v: Voxels, i: nat): seq<Face>
    requires i < Volume
  {
    var (x, y, z) := CoordOf(i);
    VoxelFacesAt(v, x, y, z)
  }

  /** Faces of the first `n` voxels in scan order. The z/y/x loop nest
      visits voxels in increasing flat index, so scanning up to voxel
      (x, y, z) is scanning the flat positions below `Index(x, y, z)`. */
  function ScanUpTo(v: Voxels, n: nat): seq<Face>
    requires n <= Volume
  {
    if n == 0 then [] else ScanUpTo(v, n - 1) + FacesAtIndex(v, n - 1)
  }

  /** Every face a rebuild of the bitset `v` emits, in emission order. */
  function Faces(v: Voxels): seq<Face> {
    ScanUpTo(v, Volume)
  }

  /** Rank of a face in emission order: voxel scan position, then direction. */
  function Key(f: Face): nat {
    Index(f.x, f.y, f.z) * 6 + Ord(f.dir)
  }

  /** Faces appear in strictly increasing scan order (hence without repeats). */
  predicate ScanOrdered(fs: seq<Face>) {
    forall i, j :: 0 <= i < j < |fs| ==> Key(fs[i]) < Key(fs[j])
  }

  /** Distinct in-chunk faces have distinct ranks. */
  lemma KeyInjective(f: Face, g: Face)
    requires InChunk(f.x, f.y, f.z) && InChunk(g.x, g.y, g.z)
    requires Key(f) == Key(g)
    ensures f == g
  {
    assert Index(f.x, f.y, f.z) == Index(g.x, g.y, g.z) && Ord(f.dir) == Ord(g.dir);
    IndexInjective(f.x, f.y, f.z, g.x, g.y, g.z);
  }

  /** Trying the first `k` directions of an occupied voxel emits the faces
      whose test passes, in direction order, ranked within the voxel. */
  lemma {:induction false} TriedFacesSpec(v: Voxels, x: nat, y: nat, z: nat, k: nat)
    requires InChunk(x, y, z) && k <= DirCount
    ensures forall f :: f in TriedFaces(v, x, y, z, k) <==>
      f.x == x && f.y == y && f.z == z && Ord(f.dir) < k && FaceTest(v, x, y, z, f.dir)
    ensures ScanOrdered(TriedFaces(v, x, y, z, k))
    ensures Ranked(TriedFaces(v, x, y, z, k), Index(x, y, z) * 6, Index(x, y, z) * 6 + k)
  {
    if k > 0 {
      TriedFacesSpec(v, x, y, z, k - 1);
      var d := ScanDir(k - 1);
      var t := TryDir(v, x, y, z, d);
      assert Ord(d) == k - 1 by {
        assert ScanDir(Ord(d)) == d;
      }
      assert ScanOrdered(t) && Ranked(t, Index(x, y, z) * 6 + (k - 1), Index(x, y, z) * 6 + k);
      ConcatRanked(TriedFaces(v, x, y, z, k - 1), t,
                   Index(x, y, z) * 6, Index(x, y, z) * 6 + (k - 1), Index(x, y, z) * 6 + k);
      forall f ensures f in TriedFaces(v, x, y, z, k) <==>
        f.x == x && f.y == y && f.z == z && Ord(f.dir) < k && FaceTest(v, x, y, z, f.dir)
      {
        if f.x == x && f.y == y && f.z == z && Ord(f.dir) == k - 1 {
          assert f.dir == d;
        }
      }
    }
  }

  lemma ConcatOrdered(a: seq<Face>, b: seq<Face>, bound: nat)
    requires ScanOrdered(a) && ScanOrdered(b)
    requires forall f :: f in a ==> Key(f) < bound
    requires forall f :: f in b ==> bound <= Key(f)
    ensures ScanOrdered(a + b)
  {
    forall i, j | 0 <= i < j < |a + b|
      ensures Key((a + b)[i]) < Key((a + b)[j])
    {
      if j < |a| {
      } else if i < |a| {
        assert (a + b)[i] in a && (a + b)[j] in b;
      } else {
        assert (a + b)[i] == b[i - |a|] && (a + b)[j] == b[j - |a|];
      }
    }
  }

  /** Every face of `fs` ranks in [lo, hi). */
  predicate Ranked(fs: seq<Face>, lo: int, hi: int) {
    forall f :: f in fs ==> lo <= Key(f) < hi
  }

  /** Ordered runs over adjacent rank ranges concatenate to an ordered run
      over the joined range. */
  lemma ConcatRanked(a: seq<Face>, b: seq<Face>, lo: int, mid: int, hi: int)
    requires ScanOrdered(a) && ScanOrdered(b) && Ranked(a, lo, mid) && Ranked(b, mid, hi)
    requires 0 <= lo <= mid <= hi
    ensures ScanOrdered(a + b) && Ranked(a + b, lo, hi)
  {
    ConcatOrdered(a, b, mid);
    forall f | f in a + b ensures lo <= Key(f) < hi {
      assert f in a || f in b;
    }
  }

  /** The faces of voxel (x, y, z) are the admitted faces there. */
  lemma VoxelMembers(v: Voxels, x: nat, y: nat, z: nat)
    requires InChunk(x, y, z)
    ensures forall f :: f in VoxelFacesAt(v, x, y, z) <==>
      Emitted(v, f) && f.x == x && f.y == y && f.z == z
  {
    FaceTestExposed(v, x, y, z);
    if !Empty(v, x, y, z) {
      TriedFacesSpec(v, x, y, z, DirCount);
    }
  }

  /** The faces of voxel (x, y, z) come in direction order, ranked within
      the voxel's own block of six. */
  lemma VoxelOrdered(v: Voxels, x: nat, y: nat, z: nat)
    requires InChunk(x, y, z)
    ensures ScanOrdered(VoxelFacesAt(v, x, y, z))
    ensures Ranked(VoxelFacesAt(v, x, y, z), 6 * Index(x, y, z), 6 * Index(x, y, z) + 6)
  {
    if !Empty(v, x, y, z) {
      TriedFacesSpec(v, x, y, z, DirCount);
    }
  }

  /** The scan of the first `n` voxels emits the admitted faces of those
      voxels. */
  lemma {:induction false} ScanMember(v: Voxels, n: nat, f: Face)
    requires n <= Volume
    ensures f in ScanUpTo(v, n) <==> Emitted(v, f) && Index(f.x, f.y, f.z) < n
  {
    if n > 0 {
      ScanMember(v, n - 1, f);
      var (x, y, z) := CoordOf(n - 1);
      VoxelMembers(v, x, y, z);
      if Emitted(v, f) && Index(f.x, f.y, f.z) == n - 1 {
        IndexInjective(f.x, f.y, f.z, x, y, z);
      }
    }
  }

  /** The scan of the first `n` voxels emits faces in scan order, all ranked
      below the voxel `n`. */
  lemma {:induction false} ScanOrderedUpTo(v: Voxels, n: nat)
    requires n <= Volume
    ensures ScanOrdered(ScanUpTo(v, n)) && Ranked(ScanUpTo(v, n), 0, 6 * n)
  {
    if n > 0 {
      ScanOrderedUpTo(v, n - 1);
      var (x, y, z) := CoordOf(n - 1);
      VoxelOrdered(v, x, y, z);
      ConcatRanked(ScanUpTo(v, n - 1), VoxelFacesAt(v, x, y, z), 0, 6 * (n - 1), 6 * n);
    }
  }

  /** The emission rule and the scan order, for the whole chunk: a face is
      in `Faces(v)` iff `Emitted` admits it, and faces come in scan order. */
  lemma FacesSpec(v: Voxels)
    ensures forall f :: f in Faces(v) <==> Emitted(v, f)
    ensures ScanOrdered(Faces(v))
  {
    forall f ensures f in Faces(v) <==> Emitted(v, f) {
      ScanMember(v, Volume, f);
    }
    ScanOrderedUpTo(v, Volume);
  }

  /** The head of a scan-ordered sequence ranks below every other member. */
  lemma HeadRanksFirst(a: seq<Face>)
    requires ScanOrdered(a) && a != []
    ensures forall f :: f in a ==> Key(a[0]) <= Key(f)
    ensures forall f :: f in a[1..] ==> Key(a[0]) < Key(f)
  {
    forall f | f in a[1..] ensures Key(a[0]) < Key(f) {
      var p :| 0 <= p < |a[1..]| && a[1..][p] == f;
      assert a[p + 1] == f;
    }
  }

  lemma HeadIsMember(b: seq<Face>)
    ensures b != [] ==> b[0] in b
  {
  }

  lemma TailsShareMembers(a: seq<Face>, b: seq<Face>)
    requires ScanOrdered(a) && ScanOrdered(b) && a != [] && b != [] && a[0] == b[0]
    requires forall f :: f in a <==> f in b
    ensures ScanOrdered(a[1..]) && ScanOrdered(b[1..])
    ensures forall f :: f in a[1..] <==> f in b[1..]
  {
    HeadRanksFirst(a);
    HeadRanksFirst(b);
    forall f ensures f in a[1..] <==> f in b[1..] {
      assert f in a[1..] <==> f in a && f != a[0];
      assert f in b[1..] <==> f in b && f != b[0];
    }
  }

  /** Two scan-ordered sequences of in-chunk faces with the same members are equal. */
  lemma {:induction false} OrderedUnique(a: seq<Face>, b: seq<Face>)
    requires ScanOrdered(a) && ScanOrdered(b)
    requires forall f :: f in a <==> f in b
    requires forall f :: f in a ==> InChunk(f.x, f.y, f.z)
    ensures a == b
    decreases |a|
  {
    if a == [] {
      HeadIsMember(b);
    } else {
      assert a[0] in b;
      assert b[0] in a;
      HeadRanksFirst(a);
      HeadRanksFirst(b);
      KeyInjective(a[0], b[0]);
      TailsShareMembers(a, b);
      OrderedUnique(a[1..], b[1..]);
      assert a == [a[0]] + a[1..] && b == [b[0]] + b[1..];
    }
  }

  /** The emitted sequence is the only scan-ordered sequence holding exactly
      the faces the rule admits. */
  lemma FacesUnique(v: Voxels, fs: seq<Face>)
    requires ScanOrdered(fs)
    requires forall f :: f in fs <==> Emitted(v, f)
    ensures fs == Faces(v)
  {
    FacesSpec(v);
    OrderedUnique(fs, Faces(v));
  }

  /** A lone voxel, wherever it sits in the chunk, shows all six faces, in
      the order back, front, right, left, bottom, top. */
  lemma SingleVoxelFaces(v: Voxels, x: nat, y: nat, z: nat)
    requires InChunk(x, y, z)
    requires forall i | 0 <= i < Volume :: v[i] == (i == Index(x, y, z))
    ensures Faces(v) == [Face(x, y, z, Back), Face(x, y, z, Front), Face(x, y, z, Right),
                         Face(x, y, z, Left), Face(x, y, z, Bottom), Face(x, y, z, Top)]
    ensures |Faces(v)| == 6
  {
    var fs := [Face(x, y, z, Back), Face(x, y, z, Front), Face(x, y, z, Right),
               Face(x, y, z, Left), Face(x, y, z, Bottom), Face(x, y, z, Top)];
    forall f ensures f in fs <==> Emitted(v, f) {
      if Emitted(v, f) {
        IndexInjective(f.x, f.y, f.z, x, y, z);
        assert f == Face(x, y, z, f.dir);
      }
      if f in fs {
        var n := Neighbour(x, y, z, f.dir);
        if n.Some? {
          if Index(n.value.0, n.value.1, n.value.2) == Index(x, y, z) {
            IndexInjective(n.value.0, n.value.1, n.value.2, x, y, z);
          }
        }
      }
    }
    FacesUnique(v, fs);
  }

  /** The face on the other side: the direction back from a neighbour. */
  function Opposite(d: Dir): (r: Dir)
    ensures Step(r) == (-Step(d).0, -Step(d).1, -Step(d).2)
  {
    match d
    case Back => Front
    case Front => Back
    case Right => Left
    case Left => Right
    case Bottom => Top
    case Top => Bottom
  }

  /** A voxel has at most one neighbour in each direction, and different
      directions lead to different neighbours. */
  lemma NeighbourInjective(x: nat, y: nat, z: nat, d: Dir, e: Dir)
    requires InChunk(x, y, z) && Neighbour(x, y, z, d).Some?
    requires Neighbour(x, y, z, e) == Neighbour(x, y, z, d)
    ensures d == e
  {
  }

  /** Stepping across face `d` and back across the opposite face returns to
      the voxel. */
  lemma NeighbourBack(x: nat, y: nat, z: nat, d: Dir)
    requires InChunk(x, y, z) && Neighbour(x, y, z, d).Some?
    ensures var n := Neighbour(x, y, z, d).value;
      Neighbour(n.0, n.1, n.2, Opposite(d)) == Some((x, y, z))
  {
  }

  /** Exactly the voxels at flat positions `a` and `b` are occupied. */
  predicate OnlyTwo(v: Voxels, a: nat, b: nat) {
    forall i | 0 <= i < Volume :: v[i] == (i == a || i == b)
  }

  /** When only `p` and `q` are occupied, an in-chunk offset is occupied
      exactly when it is one of them. */
  lemma OnlyTwoOccupied(v: Voxels, p: (nat, nat, nat), q: (nat, nat, nat), a: nat, b: nat, c: nat)
    requires InChunk(p.0, p.1, p.2) && InChunk(q.0, q.1, q.2) && InChunk(a, b, c)
    requires OnlyTwo(v, Index(p.0, p.1, p.2), Index(q.0, q.1, q.2))
    ensures !Empty(v, a, b, c) <==> (a, b, c) == p || (a, b, c) == q
  {
    if Index(a, b, c) == Index(p.0, p.1, p.2) {
      IndexInjective(a, b, c, p.0, p.1, p.2);
    } else if Index(a, b, c) == Index(q.0, q.1, q.2) {
      IndexInjective(a, b, c, q.0, q.1, q.2);
    }
  }

  /** With exactly the voxel (x, y, z) and its neighbour across face `d`
      occupied, the voxel shows every face but `d`, and the neighbour every
      face but the opposite one. */
  lemma PairEmitted(v: Voxels, x: nat, y: nat, z: nat, d: Dir, f: Face)
    requires InChunk(x, y, z) && Neighbour(x, y, z, d).Some?
    requires OnlyTwo(v, Index(x, y, z), Index(Neighbour(x, y, z, d).value.0,
                                              Neighbour(x, y, z, d).value.1,
                                              Neighbour(x, y, z, d).value.2))
    ensures var n := Neighbour(x, y, z, d).value;
      Emitted(v, f) <==>
        || (f.x == x && f.y == y && f.z == z && f.dir != d)
        || (f.x == n.0 && f.y == n.1 && f.z == n.2 && f.dir != Opposite(d))
  {
    var n := Neighbour(x, y, z, d).value;
    if InChunk(f.x, f.y, f.z) {
      OnlyTwoOccupied(v, (x, y, z), n, f.x, f.y, f.z);
      var m := Neighbour(f.x, f.y, f.z, f.dir);
      if m.Some? {
        OnlyTwoOccupied(v, (x, y, z), n, m.value.0, m.value.1, m.value.2);
        if (f.x, f.y, f.z) == (x, y, z) && m.value == n {
          NeighbourInjective(x, y, z, d, f.dir);
        }
        if (f.x, f.y, f.z) == n && m.value == (x, y, z) {
          NeighbourBack(x, y, z, d);
          NeighbourInjective(n.0, n.1, n.2, Opposite(d), f.dir);
        }
      }
      if (f.x, f.y, f.z) == n && f.dir == Opposite(d) {
        NeighbourBack(x, y, z, d);
      }
    }
  }

  /** Two voxels side by side along x hide the two faces they share: ten
      faces, the lower-x voxel's first. */
  lemma AdjacentPairFacesX(v: Voxels, x: nat, y: nat, z: nat)
    requires InChunk(x + 1, y, z)
    requires OnlyTwo(v, Index(x, y, z), Index(x + 1, y, z))
    ensures Faces(v) == [Face(x, y, z, Back), Face(x, y, z, Front), Face(x, y, z, Right),
                         Face(x, y, z, Bottom), Face(x, y, z, Top),
                         Face(x + 1, y, z, Back), Face(x + 1, y, z, Front), Face(x + 1, y, z, Left),
                         Face(x + 1, y, z, Bottom), Face(x + 1, y, z, Top)]
    ensures |Faces(v)| == 10
  {
    var fs := [Face(x, y, z, Back), Face(x, y, z, Front), Face(x, y, z, Right),
               Face(x, y, z, Bottom), Face(x, y, z, Top),
               Face(x + 1, y, z, Back), Face(x + 1, y, z, Front), Face(x + 1, y, z, Left),
               Face(x + 1, y, z, Bottom), Face(x + 1, y, z, Top)];
    forall f ensures f in fs <==> Emitted(v, f) {
      PairEmitted(v, x, y, z, Left, f);
    }
    FacesUnique(v, fs);
  }

  /** Two voxels stacked along y hide the two faces they share: ten faces,
      the lower voxel's first. */
  lemma AdjacentPairFacesY(v: Voxels, x: nat, y: nat, z: nat)
    requires InChunk(x, y + 1, z)
    requires OnlyTwo(v, Index(x, y, z), Index(x, y + 1, z))
    ensures Faces(v) == [Face(x, y, z, Back), Face(x, y, z, Front), Face(x, y, z, Right),
                         Face(x, y, z, Left), Face(x, y, z, Bottom),
                         Face(x, y + 1, z, Back), Face(x, y + 1, z, Front), Face(x, y + 1, z, Right),
                         Face(x, y + 1, z, Left), Face(x, y + 1, z, Top)]
    ensures |Faces(v)| == 10
  {
    var fs := [Face(x, y, z, Back), Face(x, y, z, Front), Face(x, y, z, Right),
               Face(x, y, z, Left), Face(x, y, z, Bottom),
               Face(x, y + 1, z, Back), Face(x, y + 1, z, Front), Face(x, y + 1, z, Right),
               Face(x, y + 1, z, Left), Face(x, y + 1, z, Top)];
    forall f ensures f in fs <==> Emitted(v, f) {
      PairEmitted(v, x, y, z, Top, f);
    }
    FacesUnique(v, fs);
  }

  /** Two voxels one behind the other along z hide the two faces they share:
      ten faces, the lower-z voxel's first. */
  lemma AdjacentPairFacesZ(v: Voxels, x: nat, y: nat, z: nat)
    requires InChunk(x, y, z + 1)
    requires OnlyTwo(v, Index(x, y, z), Index(x, y, z + 1))
    ensures Faces(v) == [Face(x, y, z, Back), Face(x, y, z, Right), Face(x, y, z, Left),
                         Face(x, y, z, Bottom), Face(x, y, z, Top),
                         Face(x, y, z + 1, Front), Face(x, y, z + 1, Right), Face(x, y, z + 1, Left),
                         Face(x, y, z + 1, Bottom), Face(x, y, z + 1, Top)]
    ensures |Faces(v)| == 10
  {
    var fs := [Face(x, y, z, Back), Face(x, y, z, Right), Face(x, y, z, Left),
               Face(x, y, z, Bottom), Face(x, y, z, Top),
               Face(x, y, z + 1, Front), Face(x, y, z + 1, Right), Face(x, y, z + 1, Left),
               Face(x, y, z + 1, Bottom), Face(x, y, z + 1, Top)];
    forall f ensures f in fs <==> Emitted(v, f) {
      PairEmitted(v, x, y, z, Front, f);
    }
    FacesUnique(v, fs);
  }
}
