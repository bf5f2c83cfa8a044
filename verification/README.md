# Dig voxel core, modelled in Dafny

Dig is a small voxel game. Its world is a hash map from chunk keys to
chunks. A chunk is a 16 x 16 x 16 block of occupancy bits together with the
mesh last built from those bits and a `dirty` flag. Editing a voxel only
sets or clears a bit and marks its chunk dirty. Once a frame every dirty
chunk rebuilds its mesh. The rebuild scans the chunk in z/y/x order and
emits one quad for every face of an occupied voxel that no occupied
neighbour inside the chunk covers. Each quad becomes four vertices, four
normals and six indices.

The project models that core with immutable datatypes and pure functions.
The loops the source writes out are modelled as methods whose results are
proved equal to the functional definitions.

- `grid.dfy` (`Grid`): the chunk bitset and its flat index
  `z*256 + y*16 + x`, with the index's inverse.
- `mesher.dfy` (`Mesher`): the six face directions, the source's per-face
  tests, and the sequence of faces a rebuild emits.
  - `Emitted` is an independent statement of the face rule: an occupied
    voxel shows a face when the chunk boundary or an empty neighbour lies
    on that side.
  - `FacesSpec` and `FacesUnique` prove that the emitted sequence holds
    exactly those faces, in scan order, and that it is the only such
    sequence.
- `geometry.dfy` (`Geometry`):
  - the corner and normal tables;
  - the vertex, normal and index streams built from a face sequence, both
    as the source writes them and corrected (see Findings);
  - the index loop of `CreateCubeMesh`.
- `chunks.dfy` (`Chunks`):
  - `Chunk` with `Set`, `Remove` and `RebuildIfDirty`;
  - the `AddFace` closure and the z/y/x rebuild loops, written as methods.
- `coords.dfy` (`Coords`): `VoxelCoord`, `ChunkCoord`, the split of a global
  position into a chunk key and an in-chunk offset, and `operator==`.
- `world.dfy` (`World`):
  - `VoxelWorld` with `GetChunk`, `AddVoxel` and `RemoveVoxel`;
  - the per-frame rebuild sweep;
  - the terrain generation loop of `main`.

Modelling decisions:

- An occupancy bit is a `bool`. The bitset is a `seq<bool>` of length 4096.
- Positions are kept in doubled voxel units so that they stay integers.
  With a voxel size of 1 and an extent of 0.5, a corner is the voxel's
  centre (2x, 2y, 2z) plus or minus 1 on each axis.
- A `u32` coordinate is a `nat` below 2^32. On such a value:
  - the 4-bit bit-field `blockX` is the remainder by 16;
  - the 28-bit bit-field `chunkX` is the quotient by 16;
  - masking with `CHUNK_MASK` subtracts the remainder.
- `std::bitset::set` and `test` throw when the flat index is out of range.
  `Set`, `Remove` and `Empty` therefore require a flat index below 4096.
  They do not require each coordinate to be below 16, because the source
  does not check the coordinates one by one either.
- The mesh a chunk keeps is the uploaded streams plus `indexCount`. GPU
  buffer handles are not part of it.
- The terrain heights are a parameter: one height per column x, at most 16.
  The source computes them as `(u32)(fabsf(sinf(x * 0.2f)) * 16)`.

One might expect `RemoveVoxel` on a position whose chunk does not exist to
do nothing. The code, however, goes through `GetChunk`, and `operator[]`
inserts a default chunk. The model follows the code:
`World.RemoveFromMissingChunk` states that removing from a missing chunk
inserts an empty, dirty chunk.

## Model

| member | source | states |
|---|---|---|
| Grid.Index | Source/DigGameMain.cpp:153 | `Chunk::Index` sends every in-chunk offset to a flat bit position below 4096; with `IndexInjective` and `CoordOf` it is a bijection onto those positions |
| Grid.Empty | Source/DigGameMain.cpp:154 | `Chunk::Empty` reads the bit at the offset's flat index; `Chunks.Set` and `Chunks.Remove` state their effect through it |
| Grid.CoordOf | Source/DigGameMain.cpp:153 | every flat bit position below 4096 is the index of exactly one in-chunk offset; `CoordOf` returns that offset |
| Grid.IndexInjective | Source/DigGameMain.cpp:153 | two in-chunk offsets with the same flat index are the same offset, so each voxel owns its own bit |
| Grid.CoordOfIndex | Source/DigGameMain.cpp:153 | decoding the flat index of an in-chunk offset gives the offset back |
| Mesher.Ord | Source/DigGameMain.cpp:229-245 | the position of each direction in the order the rebuild tries them (back, front, right, left, bottom, top), as the inverse of `ScanDir` |
| Mesher.Neighbour | Source/DigGameMain.cpp:229-245 | the neighbour a face test inspects is inside the chunk and differs from the voxel itself |
| Mesher.FaceTest | Source/DigGameMain.cpp:229-244 | the six written-out tests, each a boundary check followed by a look at the neighbour's bit; `FaceTestExposed` proves each equal to the emission rule |
| Mesher.FaceTestExposed | Source/DigGameMain.cpp:229-245 | each of the six written-out tests (a boundary check, then the neighbour's bit) holds exactly when the face is exposed |
| Mesher.TriedFacesSpec | Source/DigGameMain.cpp:229-245 | trying the first k directions of a voxel emits exactly the faces whose test passes, in direction order |
| Mesher.ScanMember | Source/DigGameMain.cpp:220-248 | the scan of the first n voxels emits face f iff f is an exposed face of an occupied voxel whose flat index is below n |
| Mesher.ScanOrderedUpTo | Source/DigGameMain.cpp:220-248 | the scan of the first n voxels emits its faces in strictly increasing (voxel, direction) order |
| Mesher.FacesSpec | Source/DigGameMain.cpp:220-248 | a rebuild emits face f iff the face rule admits f (occupied voxel, nothing in the chunk covering that side), in scan order |
| Mesher.OrderedUnique | Source/DigGameMain.cpp:220-248 | two scan-ordered face sequences with the same members are equal |
| Mesher.FacesUnique | Source/DigGameMain.cpp:220-248 | the emitted face sequence is the only scan-ordered sequence holding exactly the admitted faces |
| Mesher.SingleVoxelFaces | Source/DigGameMain.cpp:226-245 | a lone voxel anywhere in a chunk shows all six faces, in the order back, front, right, left, bottom, top |
| Mesher.PairEmitted | Source/DigGameMain.cpp:226-245 | with exactly a voxel and its neighbour across face d occupied, in any of the six directions, the voxel shows every face but d and the neighbour every face but the opposite one, in both directions of the iff |
| Mesher.AdjacentPairFacesX | Source/DigGameMain.cpp:226-245 | two voxels side by side along x hide their shared faces and emit ten faces, the lower-x voxel's first |
| Mesher.AdjacentPairFacesY | Source/DigGameMain.cpp:226-245 | two voxels stacked along y hide their shared faces (the lower one's top, the upper one's bottom) and emit ten faces, the lower voxel's first |
| Mesher.AdjacentPairFacesZ | Source/DigGameMain.cpp:226-245 | two voxels adjacent along z hide their shared faces (the lower one's front, the upper one's back) and emit ten faces, the lower-z voxel's first |
| Geometry.Normal | Source/DigGameMain.cpp:182-187 | each face normal is the unit step towards the neighbour whose emptiness exposes the face |
| Geometry.QuarterTurn | Source/DigGameMain.cpp:175-180 | the rotation used to compare corner orders keeps a vector's component along the face normal |
| Geometry.QuarterTurnIsRotation | Source/DigGameMain.cpp:175-187 | the six quarter turns are one rotation, v to n (n . v) - n x v, each taken with its own face normal n |
| Geometry.Corners | Source/DigGameMain.cpp:165-180 | each face lists four corners, transcribed from the `ftl` ... `bbl` constants and the six position tables; `CornersWind` states where they lie and in what order |
| Geometry.CornersWind | Source/DigGameMain.cpp:165-180 | every corner of a face lies half a voxel out along the face normal, and each corner is the quarter turn of the previous one; since `QuarterTurnIsRotation` makes the six turns one rotation, all six quads wind the same way about their outward normals |
| Geometry.QuadIndices | Source/DigGameMain.cpp:212-217 | the six indices of a quad are its base plus 2, 1, 0, 0, 3, 2 |
| Geometry.CubeIndices | Source/DigGameMain.cpp:122-132 | the cube mesh's index loop yields 36 indices: face k's two triangles over its own vertices 4k to 4k+3, all below 24, so they fit in `u16` |
| Geometry.PushKeepsQuads | Source/DigGameMain.cpp:203-218 | appending one face's indices extends the layout in which quad q uses vertices 4q + shift to 4q + shift + 3 |
| Geometry.BuildLayout | Source/DigGameMain.cpp:203-218 | in the corrected streams, face q owns vertices 4q to 4q+3 (its corners and normal), and quad q indexes exactly those vertices |
| Geometry.BuildIndicesInRange | Source/DigGameMain.cpp:203-218 | every index of the corrected streams names an existing vertex |
| Geometry.BuildAsWritten | Source/DigGameMain.cpp:203-218 | the streams as the source builds them, face by face: four positions, four normals and six indices per face; `AsWrittenLayout` states what they hold |
| Geometry.AsWrittenLayout | Source/DigGameMain.cpp:203-218 | in the streams as written, face q still owns vertices 4q to 4q+3, but quad q indexes vertices 4q+4 to 4q+7 |
| Geometry.AsWrittenShiftsIndices | Source/DigGameMain.cpp:211-217 | the streams as written equal the corrected ones, except that every index is larger by 4 |
| Geometry.AsWrittenOverrunsVertices | Source/DigGameMain.cpp:211-217 | as written, the last quad refers to vertex number `positions.size() + 3`, past the end of the vertex stream |
| Geometry.MeshOf | Source/DigGameMain.cpp:250-258 | the recorded mesh has four positions and four normals per face, and `indexCount` equals the number of indices, six per face |
| Chunks.Set | Source/DigGameMain.cpp:155 | `Set` occupies the voxel, leaves every other bit and the mesh alone, and marks the chunk dirty |
| Chunks.Remove | Source/DigGameMain.cpp:156 | `Remove` clears the voxel, leaves every other bit and the mesh alone, and marks the chunk dirty |
| Chunks.RebuildIfDirty | Source/DigGameMain.cpp:158-163 | a clean chunk is returned unchanged; a dirty one keeps its voxels, becomes clean, and gets four vertices and six indices per emitted face; consistency is restored or kept |
| Chunks.RebuildIdempotent | Source/DigGameMain.cpp:158-163 | a second rebuild with no edit in between changes nothing |
| Chunks.SetRemoveNoOp | Source/DigGameMain.cpp:155-156 | setting an occupied voxel, or removing an empty one, leaves the bits unchanged |
| Chunks.RemoveUndoesSet | Source/DigGameMain.cpp:155-156 | removing a voxel that was just set restores the original bits when that voxel was empty before |
| Chunks.EditThenRebuild | Source/DigGameMain.cpp:155-163 | after any edit, the next rebuild gives the mesh of the edited voxels |
| Chunks.LoneVoxelMesh | Source/DigGameMain.cpp:158-260 | a fresh chunk holding one voxel rebuilds to 24 vertices and 36 indices |
| Chunks.AdjacentPairMesh | Source/DigGameMain.cpp:158-260 | a fresh chunk holding a voxel and its neighbour across any of the six faces rebuilds to 40 vertices, 40 normals and 60 indices |
| Chunks.AddFace | Source/DigGameMain.cpp:203-218 | the closure pushes four corners and four normals, then six indices based on the vertex count read after the pushes, so its third index equals the new vertex count |
| Chunks.TryFace | Source/DigGameMain.cpp:229-245 | one `if (test) AddFace` step of the voxel body extends the emitted faces by the next direction's face exactly when its test passes |
| Chunks.EmitVoxel | Source/DigGameMain.cpp:226-245 | the loop body for one voxel skips empty voxels and otherwise appends the voxel's exposed faces in direction order |
| Chunks.VisitVoxel | Source/DigGameMain.cpp:226-245 | one pass of the innermost loop body extends the scan of all earlier voxels to the scan up to and including voxel (x, y, z) |
| Chunks.ScanRow | Source/DigGameMain.cpp:224-246 | the x loop over one row appends the faces of that row's 16 voxels to the faces of all earlier voxels |
| Chunks.ScanLayer | Source/DigGameMain.cpp:222-247 | the y loop over one layer appends the faces of that layer's 256 voxels |
| Chunks.ScanVoxels | Source/DigGameMain.cpp:220-248 | the z/y/x loop nest emits exactly the faces the face rule admits, in scan order |
| Chunks.FillStreams | Source/DigGameMain.cpp:203-218 | running `AddFace` over a face sequence builds the streams as written |
| Chunks.RebuildStreams | Source/DigGameMain.cpp:199-248 | the geometry pass as the source writes it: it emits the chunk's faces and fills the streams as written, with four vertices and normals and six indices per face |
| Coords.Block | Source/DigGameMain.cpp:349 | the `blockX` bit-field is an in-chunk offset below 16 |
| Coords.ChunkIndex | Source/DigGameMain.cpp:350 | the `chunkX` bit-field is a 28-bit value |
| Coords.Align | Source/DigGameMain.cpp:339-341 | masking with `CHUNK_MASK` clears the offset, keeps the chunk index, and moves the value down by less than 16 |
| Coords.Local | Source/DigGameMain.cpp:408 | the offsets passed to `Chunk::Set` and `Chunk::Remove` always lie inside the chunk |
| Coords.ToChunkCoord | Source/DigGameMain.cpp:381 | the key built from a position has all offsets zero and keeps the position's chunk index on every axis |
| Coords.SameChunk | Source/DigGameMain.cpp:384 | `operator==` compares the chunk indices of every axis; on aligned keys it holds exactly when the keys are equal |
| Coords.SameChunkIff | Source/DigGameMain.cpp:384 | the chunk keys of two positions compare equal iff the two positions' chunk indices agree on every axis |
| Coords.SameChunkIsEquality | Source/DigGameMain.cpp:381-384 | on keys built from positions, `operator==` coincides with equality of the keys |
| Coords.Recombine | Source/DigGameMain.cpp:343-381 | on every axis, a position is its chunk key plus its in-chunk offset |
| Coords.SplitInjective | Source/DigGameMain.cpp:343-381 | two positions with the same chunk key and the same offset are the same position |
| World.GetChunk | Source/DigGameMain.cpp:400-404 | `GetChunk` returns the chunk under the position's key; if the key is absent it first inserts a fresh chunk; every other chunk is unchanged |
| World.AddVoxel | Source/DigGameMain.cpp:406-409 | afterwards the position is occupied, its chunk exists and is dirty, and every other chunk is unchanged |
| World.RemoveVoxel | Source/DigGameMain.cpp:416-419 | afterwards the position is not occupied, its chunk exists and is dirty, and every other chunk is unchanged |
| World.DistinctBits | Source/DigGameMain.cpp:381-409 | two different positions in the same chunk use different bits of it |
| World.AddVoxelFrame | Source/DigGameMain.cpp:406-409 | adding a voxel changes the occupancy of no other position |
| World.RemoveVoxelFrame | Source/DigGameMain.cpp:416-419 | removing a voxel changes the occupancy of no other position |
| World.RemoveFromMissingChunk | Source/DigGameMain.cpp:400-419 | removing a voxel from a chunk that does not exist creates that chunk, empty and dirty |
| World.AddThenRemove | Source/DigGameMain.cpp:406-419 | adding a voxel at an empty position and removing it again restores the occupancy of every position |
| World.EditsKeepConsistent | Source/DigGameMain.cpp:406-419 | edits keep every clean chunk's mesh equal to the mesh of its voxels |
| World.RebuildAll | Source/DigGameMain.cpp:498-499 | the sweep keeps the set of chunks and every chunk's voxels, and leaves every chunk clean |
| World.RebuildAllSpec | Source/DigGameMain.cpp:498-499 | the sweep changes no occupancy; on a consistent world it gives every chunk the mesh of its voxels |
| World.RebuildAllIdempotent | Source/DigGameMain.cpp:498-499 | a second sweep with no edit in between changes nothing |
| World.SweepChunks | Source/DigGameMain.cpp:498-499 | visiting the chunks one at a time, in any order the hash map yields them, gives the same world as the sweep |
| World.GenerateStep | Source/DigGameMain.cpp:475-478 | one `AddVoxel(x, h, y)` call of the generator adds exactly the voxel (x, h, y) to the terrain built so far |
| World.FillColumn | Source/DigGameMain.cpp:474-478 | the h loop adds exactly the column at (x, y), `height` voxels tall |
| World.FillRow | Source/DigGameMain.cpp:471-479 | the x loop adds exactly the 128 columns of one row |
| World.Generate | Source/DigGameMain.cpp:469-479 | after generation a position is occupied iff x and z are below 128 and y is below the column's height; every chunk is consistent and lies in the bottom layer of the 128 x 128 square |

## Left out

- The `std::hash<ChunkCoord>` specialisation is not modelled. The map is
  modelled by key value, which is sound because `Coords.SameChunkIsEquality`
  shows that `operator==` is equality on the keys a world uses.
- Floating point is not modelled. Positions are integers in doubled voxel
  units, and the terrain heights are a parameter rather than
  `fabsf(sinf(...))`.
- GPU resources are not modelled: buffer creation and release, strides,
  offsets, `indexType`, materials, and the position and normal tables of
  `CreateCubeMesh`. Only the cube's index loop is modelled.
- The window, the message loop, ImGui, rendering and `HighResolutionClock`
  are I/O and timing. They are outside the core.
- The `u32` overloads of `AddVoxel` and `RemoveVoxel` only build a
  `VoxelCoord` and forward to the modelled functions.
- The index stream of a chunk mesh is `u32` in the source. The model does
  not track its width; a chunk has at most 4096 * 6 * 4 vertices, far below
  2^32.
- Chunks.RebuildIfDirty: the chunk keeps the corrected mesh (`MeshOf`), not
  the mesh the source builds. The source's mesh differs only in its index
  stream, by the shift stated in `Geometry.AsWrittenShiftsIndices`.
- Chunks.RebuildStreams: runs the scan first and then feeds the faces
  through `AddFace`, while the source calls `AddFace` from inside the scan.
  The two are equivalent because `AddFace` reads only the streams built so
  far and is fed the same faces in the same order.
- Chunks.Set, Chunks.Remove and Grid.Empty require a flat position below 4096. The
  source indexes a `std::bitset`, whose `set` and `test` throw
  `std::out_of_range` for a position of 4096 or more. Every caller passes
  an in-chunk offset, whose flat position is below 4096, so that path is
  never reached.

## Findings

| source | as written | input that shows it | evidently intended | confidence | as-written member | corrected member |
|---|---|---|---|---|---|---|
| Source/DigGameMain.cpp:211-217 | `AddFace` reads `vertexOffset = positions.size()` after pushing the face's four vertices, so each quad's indices name the next face's vertices | a chunk holding one voxel: 24 vertices, but the last quad's indices reach vertex 27 (`Geometry.AsWrittenOverrunsVertices`) | read the vertex count before the pushes, so quad q uses its own vertices 4q to 4q+3 | not executed | Geometry.AsWrittenOverrunsVertices | Geometry.BuildIndicesInRange |
