# MyMinecraft core in Dafny

A model of the two algorithmic parts of the MyMinecraft voxel engine, with proofs.

- **Chunks and meshing** (`src/Chunk.h`). A chunk is a 16x16x16 grid of
  block types: Air, Stone, Dirt and Grass, stored one byte per cell. The
  constructor fills the grid with Air. Terrain generation gives every
  (x, z) column a surface height from a noise sample, then fills the column
  with Air above the surface, Dirt at the surface and the two cells below it,
  and Stone deeper down. The mesh build clears the vertex buffer. For every
  solid cell, and each of its six faces whose neighbour is Air or outside
  the chunk, it appends six vertices of five floats each: x, y, z, u, v.
  Texture coordinates point into a horizontal atlas of three tiles.
- **Player physics** (`src/Player.h`). The player is an axis-aligned box,
  0.6 wide, 1.8 high and 0.6 deep, standing on its feet position. Each
  physics step applies gravity and clamps the fall speed to the terminal
  velocity. The step then moves along x, then y, then z. A move along an
  axis is committed only when the box at the candidate position overlaps
  no solid block; otherwise that velocity component is zeroed. A blocked
  downward move puts the player on the ground. Solid blocks are looked up
  in a map of loaded chunks. World coordinates resolve to a chunk and an
  offset with floor semantics, so negative coordinates work too.

Modules and files:

| file | module | contents |
|---|---|---|
| `voxel.dfy` | `Voxel` | block types, the `Grid` of a chunk, terrain heights and columns, atlas tile per face |
| `mesh.dfy` | `Mesh` | face vertex tables, one face's floats, the mesh of a grid as a value, exposed faces counted |
| `chunk.dfy` | `Chunks` | class `Chunk`: `array3` block grid and `seq<real>` vertex buffer, updated in place |
| `geometry.dfy` | `Geometry` | `Vec3`, `AABB`, box construction, the strict overlap test |
| `world.dfy` | `WorldIndex` | chunk/offset resolution of world coordinates, solid-block lookup |
| `player.dfy` | `Physics` | the collision predicate, one physics step as a function, class `Player` |

How things are represented:
- Floats are modelled as `real`, so rounding is not modelled.
- C++'s `(int)` cast and integer division truncate toward zero. They are
  modelled explicitly (`Voxel.Trunc`, `WorldIndex.TruncDiv`), because
  Dafny's `/` is Euclidean.
- The fractal Perlin noise is a parameter `noise: (real, real) -> real`. It
  is sampled at `(worldX * 0.05, worldZ * 0.05)`; the library's fixed y of
  0 and its fixed octave settings are part of that parameter.
- The map of loaded chunks is a `map<(int, int), Grid>` of chunk contents.

Terrain height uses C++'s truncating `(int)` cast (`src/Chunk.h:71`), not
rounding, so a noise value of -0.1 gives height 8. The collision scan
(`src/Player.h:100-102`) covers `[floor(min), ceil(max))` on every axis, with
the upper bound excluded. `Physics.ScanRangeSuffices` proves that this range
misses no cell whose box overlaps the player's box.

## Model

| member | source | states |
|---|---|---|
| `Voxel.Trunc` | src/Chunk.h:71 | the `(int)` cast: the result is the integer next to r on the side of zero, within distance 1 |
| `Voxel.TerrainHeight` | src/Chunk.h:71-73 | the clamped column height always lies in [1, 15]; it equals the truncated raw height when that lies in [1, 15], is 1 when the raw height is below 1, and 15 when it is 16 or more |
| `Voxel.HeightForNominalNoise` | src/Chunk.h:70-73 | for noise in [-1, 1] neither clamp is active and the height lies in [2, 14] |
| `Voxel.ColumnBlock` | src/Chunk.h:75-89 | the block at height y of a column with surface h is Air iff y > h, Dirt iff h-3 < y <= h, Stone iff y <= h-3 |
| `Voxel.ColumnHeight` | src/Chunk.h:57-73 | the surface height of a column, from the noise at its world coordinates, lies in [1, 15], and in [2, 14] when the noise lies in [-1, 1] |
| `Voxel.Terrain` | src/Chunk.h:48-92 | in the generated grid a cell is Air iff it lies above its column's surface height, and no cell is Grass |
| `Voxel.TerrainColumnShape` | src/Chunk.h:75-89 | in every generated column, a cell is Air iff it is above the surface h, Dirt iff h-3 < y <= h, Stone iff y <= h-3; it is never Grass; no Air lies below a solid cell |
| `Voxel.TerrainDeterministic` | src/Chunk.h:48-92 | two chunks with the same coordinates and the same noise function get the same grid |
| `Voxel.TextureIndex` | src/Chunk.h:107-121 | the atlas tile is in [0, 3); it is 1 iff the block is Stone, 2 iff the block is Grass and the face is the top (5), and 0 in every other case |
| `Mesh.Neighbour` | src/Chunk.h:193-216 | the neighbour offset each culling test looks at: z+1, z-1, x-1, x+1, y-1, y+1 for faces 0 to 5 |
| `Mesh.NeighbourIsUnitStep` | src/Chunk.h:193-216 | each culling test looks one step along exactly one axis, and no two faces look the same way |
| `Mesh.Corner` | src/Chunk.h:150-163 | every corner offset of the position table is 0 or 1, and every vertex of face f lies on the plane the cell shares with the neighbour that the mesh build tests for f |
| `Mesh.LocalUV` | src/Chunk.h:135-148 | every local texture coordinate of the UV table is 0 or 1 |
| `Mesh.Vertex` | src/Chunk.h:165-175 | one vertex is five floats: x, y, z, u, v |
| `Mesh.VertexInRange` | src/Chunk.h:165-175 | a vertex lies in the cell's unit cube, with u inside the tile [t/3, (t+1)/3] of texture index t and v inside [0, 1] |
| `Mesh.FaceVerticesUpTo` | src/Chunk.h:164-175 | the first k vertices of a face are 5k floats |
| `Mesh.FaceVertices` | src/Chunk.h:164-175 | one face contributes exactly 30 floats |
| `Mesh.FaceVerticesUpToInRange` | src/Chunk.h:128-132 | each of the first k vertices of a face has every value in range |
| `Mesh.FaceVerticesInRange` | src/Chunk.h:128-175 | every vertex of a face has its position inside the cell's unit cube, u inside the tile [t/3, (t+1)/3] of its texture index t, and v inside [0, 1] |
| `Mesh.Exposed` | src/Chunk.h:186-216 | a face is emitted when its cell is solid and the neighbour on that side is Air or outside the chunk |
| `Mesh.ExposedAtBorders` | src/Chunk.h:193-216 | a face between two solid cells is never emitted; a solid cell's face on the chunk border always is, whatever the next chunk holds |
| `Mesh.FaceMeshSize` | src/Chunk.h:193-216 | the first k faces of a cell emit 30 floats per exposed face among them |
| `Mesh.CellMeshSize` | src/Chunk.h:184-216 | a cell emits 30 floats per exposed face, and nothing when it is Air |
| `Mesh.RowMeshSize` | src/Chunk.h:184-217 | a row of cells emits 30 floats per exposed face in it |
| `Mesh.SliceMeshSize` | src/Chunk.h:183-218 | a slice of rows emits 30 floats per exposed face in it |
| `Mesh.GridMeshSize` | src/Chunk.h:182-219 | the first k slices emit 30 floats per exposed face in them |
| `Mesh.BuildMesh` | src/Chunk.h:180-219 | the mesh holds 30 floats per (cell, direction) pair where the cell is solid and its neighbour in that direction is Air or outside the chunk |
| `Mesh.LoneCellFaces` | src/Chunk.h:193-216 | a single solid cell in an empty chunk has exactly its own six faces exposed |
| `Mesh.LoneCellMesh` | src/Chunk.h:180-219 | a single solid cell in an empty chunk yields six exposed faces and 180 floats |
| `Chunks.Chunk.constructor` | src/Chunk.h:29-38 | a new chunk is 16x16x16, every cell is Air, and the vertex buffer is empty |
| `Chunks.Chunk.InitData` | src/Chunk.h:48-92 | afterwards the block array holds exactly the terrain grid of chunk (chunkX, chunkZ) for the given noise; both coordinates default to 0 |
| `Chunks.Chunk.IsAir` | src/Chunk.h:95-103 | true for any coordinate outside [0,16) on some axis, whatever the grid holds; otherwise true iff that cell is Air |
| `Chunks.Chunk.AddFace` | src/Chunk.h:124-176 | the buffer afterwards is the old buffer, unchanged, followed by the 30 floats of that face |
| `Chunks.Chunk.UpdateMesh` | src/Chunk.h:179-219 | the buffer afterwards is the mesh of the current grid, whatever it held before; its length is 30 times the number of exposed faces |
| `Chunks.Chunk.AddSlice` | src/Chunk.h:183-218 | the middle y loop appends the floats of the rows (x, 0) .. (x, 15) in order |
| `Chunks.Chunk.AddRow` | src/Chunk.h:184-217 | the innermost z loop appends the floats of the cells (x, y, 0) .. (x, y, 15) in order |
| `Chunks.Chunk.AddCellFaces` | src/Chunk.h:190-216 | the six culling tests of a solid cell append its exposed faces in face order |
| `Chunks.Chunk.CullFace` | src/Chunk.h:193-216 | one culling test appends a face exactly when it is exposed |
| `Chunks.Chunk.CullingTest` | src/Chunk.h:193-216 | the `isAir` neighbour test for face f of a solid cell holds exactly when that face is exposed |
| `Geometry.Ceil` | src/Player.h:94 | `ceil`: the least integer not below r |
| `Geometry.Box` | src/Player.h:14-18 | the box is centred on position in x and z, its bottom is at position.y, its extents are exactly w, h, d, and non-negative sizes give min <= max on every axis |
| `Geometry.BlockBox` | src/Player.h:105-107 | the block box starts at the cell's integer corner and is 1 wide on every axis |
| `Geometry.Intersects` | src/Player.h:21-25 | two boxes fail the strict overlap test iff they are separated along some axis, touching included |
| `Geometry.IntersectsSymmetric` | src/Player.h:21-25 | the overlap test is symmetric |
| `Geometry.TouchingBoxesDoNotIntersect` | src/Player.h:21-25 | boxes that only share a boundary plane do not overlap |
| `Geometry.IntersectsIffCommonInterior` | src/Player.h:21-25 | for boxes with an interior, the test holds iff some point lies strictly inside both |
| `Geometry.IntersectingCellInScanRange` | src/Player.h:93-102 | any unit cell whose box overlaps a box lies in [floor(min), ceil(max)) of that box on every axis |
| `WorldIndex.TruncDiv` | src/Player.h:62-63 | C++ division by a positive divisor: the quotient times the divisor is the multiple nearest a on the side of zero |
| `WorldIndex.ChunkCoord` | src/Player.h:62-63 | the chunk coordinate is floor(x / 16), so x lies in [16c, 16c + 16), negative x included |
| `WorldIndex.LocalCoord` | src/Player.h:66-67 | the local coordinate lies in [0, 16), equals x mod 16, and chunk * 16 + local == x |
| `WorldIndex.NegativeCoordinates` | src/Player.h:62-67 | -1 resolves to chunk -1, offset 15; -16 to chunk -1, offset 0; -17 to chunk -2, offset 15 |
| `WorldIndex.IsBlockSolid` | src/Player.h:60-86 | true iff the chunk (x div 16, z div 16) is loaded, y is in [0, 16), and the addressed cell is not Air; so a missing chunk or any other y gives false |
| `WorldIndex.IsBlockSolidLocal` | src/Player.h:70-75 | only the chunk that (x, z) resolves to affects the answer |
| `Physics.Collides` | src/Player.h:89-118 | the player's box at a position overlaps some solid block's unit box; with no chunk loaded it never does |
| `Physics.ScanRangeSuffices` | src/Player.h:93-115 | a cell in the scanned range blocks the player iff some cell anywhere does |
| `Physics.Fall` | src/Player.h:123-128 | after gravity the vertical velocity is vy + g*dt, or -50 when that would fall below -50; it is never below -50 |
| `Physics.MoveX` | src/Player.h:135-141 | a blocked x move keeps the position and zeroes vx; a free one moves x by exactly vx*dt and keeps vx; y, z and onGround never change |
| `Physics.MoveY` | src/Player.h:144-154 | a blocked y move keeps the position, zeroes vy and sets onGround iff vy < 0 or it was already set; a free one moves y by exactly vy*dt and clears onGround; x and z never change |
| `Physics.MoveZ` | src/Player.h:157-163 | the z move, like the x move |
| `Physics.StepXMovesOnlyX` | src/Player.h:135-141 | a blocked x move keeps the position and zeroes vx; a free one moves only x, by exactly vx*dt; the new position is the old one or collision-free |
| `Physics.StepYMovesOnlyY` | src/Player.h:144-154 | the same for y |
| `Physics.StepZMovesOnlyZ` | src/Player.h:157-163 | the same for z |
| `Physics.Tick` | src/Player.h:121-164 | at the end of a step the vertical velocity is 0 or the clamped post-gravity value, and never below -50 |
| `Physics.TickKeepsCollisionFree` | src/Player.h:133-163 | a player clear of every solid block before a step is clear after it |
| `Physics.TickGrounding` | src/Player.h:144-154 | onGround is false after a committed y move, true after a blocked downward one, and unchanged after a blocked upward or zero one; a blocked y move zeroes vy |
| `Physics.JumpState` | src/Player.h:174-179 | from the ground a jump sets vy to 8 and leaves the ground; otherwise nothing changes |
| `Physics.MoveState` | src/Player.h:167-171 | a move request sets vx, vz to direction * speed and keeps vy, position and onGround |
| `Physics.Player.constructor` | src/Player.h:46-47 | a new player stands at startPos with zero velocity, not on the ground |
| `Physics.Player.GetAABB` | src/Player.h:50-52 | the player's box is 0.6 x 1.8 x 0.6, centred on the feet in x and z, with its bottom at the feet |
| `Physics.Player.CheckCollision` | src/Player.h:89-118 | true iff some solid block's unit box overlaps the player's box at newPos, and equally iff such a block lies in the scanned range |
| `Physics.Player.Update` | src/Player.h:121-164 | the new state is one physics step of the old one: gravity with clamp, then the x, y and z moves |
| `Physics.Player.UpdateX` | src/Player.h:135-141 | the x block of update performs the x move of a step |
| `Physics.Player.UpdateY` | src/Player.h:144-154 | the y block performs the y move, with its ground rules |
| `Physics.Player.UpdateZ` | src/Player.h:157-163 | the z block performs the z move |
| `Physics.Player.Move` | src/Player.h:167-171 | the new state is the move request applied to the old one |
| `Physics.Player.Jump` | src/Player.h:174-179 | the new state is the jump request applied to the old one |

## Left out

- OpenGL plumbing is not modelled: the VAO/VBO upload at the end of the mesh build (`src/Chunk.h:222-239`), the destructor (`src/Chunk.h:40-45`) and `render` (`src/Chunk.h:243-249`). They are GPU calls with no logic of their own.
- `stb_perlin_fbm_noise3` is a foreign float library, so it is a parameter. Only the height mapping and the column fill are verified.
- Float rounding is not modelled anywhere, because positions, velocities, UVs and noise are `real`s.
- `getEyePosition` is not modelled: it is a constant 1.62 offset with nothing to prove.
- The default `AABB()` constructor is not modelled separately. `checkCollision` overwrites both corners right away, and the model builds that box in one step with `Geometry.BlockBox`.
- The mesh build's inner loops and loop body, and each axis block of `update`, are separate methods (`Chunks.Chunk.AddSlice`, `Chunks.Chunk.AddRow`, `Chunks.Chunk.AddCellFaces`, `Chunks.Chunk.CullFace`, `Physics.Player.UpdateX`/`UpdateY`/`UpdateZ`). They run the same statements in the same order as the inline source.
- The world map holds each chunk's cells by value rather than `Chunk*` pointers. Aliasing between the map and live chunk objects is not modelled.
- The player's descent onto a surface over several steps is not modelled. The model proves single-step properties and that collision-freedom is kept across a step.
- 32-bit `int` width is not modelled: model integers are unbounded. Overflow of `chunkX * CHUNK_SIZE + x` (`src/Chunk.h:57-58`) and of `x - 15` (`src/Player.h:62-63`) is left out. So is the undefined behaviour of the `(int)` casts of `noiseValue * heightRange` (`src/Chunk.h:71`) and of `floor`/`ceil` (`src/Player.h:93-98`) when the value lies outside the `int` range.
- Voxel.Trunc: models the `(int)` cast for every real, with no bound on the result; the C++ cast is only defined when the value fits an `int`.
- Geometry.Ceil: models `(int)ceil(r)` for every real; the `floor` casts are modelled by Dafny's `.Floor` on every real. Out-of-range values are left out, as above.
- WorldIndex.ChunkCoord: works on unbounded integers, so `x - 15` never overflows for x near the smallest `int`.
- `src/Camera.h`, `src/main.cpp` and `convert_texture.py` are not part of this model. They hold window setup, float trigonometry and image I/O.
