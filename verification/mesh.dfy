/** The face-culled mesh of a chunk as a value: the vertices one face emits,
    the buffer the mesh build produces, and the set of exposed faces it is
    measured against (src/Chunk.h). */
module Mesh {
  import opened Voxel

  const FACES: int := 6
  const VERTICES_PER_FACE: int := 6
  const FLOATS_PER_VERTEX: int := 5
  const FLOATS_PER_FACE: int := 30

  /** Width of one atlas tile in texture space. */
  const TILE_WIDTH: real := 1.0 / ATLAS_TILES as real

  /** Offset of the neighbour looked at before emitting `face`:
      0 front (z+), 1 back (z-), 2 left (x-), 3 right (x+), 4 bottom (y-), 5 top (y+). */
  function Neighbour(face: int): (d: (int, int, int))
    requires 0 <= face < FACES
  {
    match face
    case 0 => (0, 0, 1)
    case 1 => (0, 0, -1)
    case 2 => (-1, 0, 0)
    case 3 => (1, 0, 0)
    case 4 => (0, -1, 0)
    case _ => (0, 1, 0)
  }

  /** Each culling test looks one step along exactly one axis, and the six
      faces cover all six directions. */
  lemma NeighbourIsUnitStep(face: int)
    requires 0 <= face < FACES
    ensures var d := Neighbour(face);
      || (d.0 in {-1, 1} && d.1 == 0 && d.2 == 0)
      || (d.0 == 0 && d.1 in {-1, 1} && d.2 == 0)
      || (d.0 == 0 && d.1 == 0 && d.2 in {-1, 1})
    ensures forall f | 0 <= f < FACES && f != face :: Neighbour(f) != Neighbour(face)
  {
  }

  /** Offset, relative to the cell origin, of vertex i of `face`: a corner of
      the unit cube on the plane the cell shares with the neighbour looked at for
      that face, so a culled face is never visible. */
  function Corner(face: int, i: int): (c: (int, int, int))
    requires 0 <= face < FACES && 0 <= i < VERTICES_PER_FACE
    ensures 0 <= c.0 <= 1 && 0 <= c.1 <= 1 && 0 <= c.2 <= 1
    ensures var (dx, dy, dz) := Neighbour(face);
      && (dx != 0 ==> c.0 == (if dx > 0 then 1 else 0))
      && (dy != 0 ==> c.1 == (if dy > 0 then 1 else 0))
      && (dz != 0 ==> c.2 == (if dz > 0 then 1 else 0))
  {
    match face
    case 0 => [(0, 0, 1), (1, 0, 1), (1, 1, 1), (1, 1, 1), (0, 1, 1), (0, 0, 1)][i]
    case 1 => [(0, 0, 0), (1, 1, 0), (1, 0, 0), (1, 1, 0), (0, 0, 0), (0, 1, 0)][i]
    case 2 => [(0, 1, 1), (0, 1, 0), (0, 0, 0), (0, 0, 0), (0, 0, 1), (0, 1, 1)][i]
    case 3 => [(1, 1, 1), (1, 0, 0), (1, 1, 0), (1, 0, 0), (1, 1, 1), (1, 0, 1)][i]
    case 4 => [(0, 0, 0), (1, 0, 0), (1, 0, 1), (1, 0, 1), (0, 0, 1), (0, 0, 0)][i]
    case _ => [(0, 1, 0), (1, 1, 1), (1, 1, 0), (1, 1, 1), (0, 1, 0), (0, 1, 1)][i]
  }

  /** Tile-local texture coordinates (u, v) of vertex i of `face`. */
  function LocalUV(face: int, i: int): (uv: (int, int))
    requires 0 <= face < FACES && 0 <= i < VERTICES_PER_FACE
    ensures 0 <= uv.0 <= 1 && 0 <= uv.1 <= 1
  {
    match face
    case 0 => [(0, 0), (1, 0), (1, 1), (1, 1), (0, 1), (0, 0)][i]
    case 1 => [(0, 0), (1, 1), (1, 0), (1, 1), (0, 0), (0, 1)][i]
    case 2 => [(1, 1), (0, 1), (0, 0), (0, 0), (1, 0), (1, 1)][i]
    case 3 => [(0, 1), (1, 0), (1, 1), (1, 0), (0, 1), (0, 0)][i]
    case 4 => [(0, 1), (1, 1), (1, 0), (1, 0), (0, 0), (0, 1)][i]
    case _ => [(0, 1), (1, 0), (1, 1), (1, 0), (0, 1), (0, 0)][i]
  }

  /** The five floats (x, y, z, u, v) of vertex i of `face` of the cell at
      (x, y, z), textured with atlas tile `tex`. */
  function Vertex(x: real, y: real, z: real, face: int, i: int, tex: int): (v: seq<real>)
    requires 0 <= face < FACES && 0 <= i < VERTICES_PER_FACE
    ensures |v| == FLOATS_PER_VERTEX
  {
    var (dx, dy, dz) := Corner(face, i);
    var (lu, lv) := LocalUV(face, i);
    [x + dx as real, y + dy as real, z + dz as real,
     tex as real * TILE_WIDTH + lu as real * TILE_WIDTH, lv as real]
  }

  /** The floats of the first k vertices of a face. */
  function FaceVerticesUpTo(x: real, y: real, z: real, face: int, blockType: Byte, k: int): (r: seq<real>)
    requires 0 <= face < FACES && 0 <= k <= VERTICES_PER_FACE
    ensures |r| == FLOATS_PER_VERTEX * k
  {
    if k == 0 then []
    else FaceVerticesUpTo(x, y, z, face, blockType, k - 1)
         + Vertex(x, y, z, face, k - 1, TextureIndex(blockType, face))
  }

  /** The 30 floats one face contributes to the vertex buffer. */
  function FaceVertices(x: real, y: real, z: real, face: int, blockType: Byte): (r: seq<real>)
    requires 0 <= face < FACES
    ensures |r| == FLOATS_PER_FACE
  {
    FaceVerticesUpTo(x, y, z, face, blockType, VERTICES_PER_FACE)
  }

  /** Where value n of a face's buffer lies: positions inside the cell's unit
      cube, u inside the block's atlas tile, v inside [0, 1]. */
  predicate ValueInRange(r: seq<real>, n: int, x: real, y: real, z: real, tex: int)
    requires 0 <= n < |r|
  {
    && (n % FLOATS_PER_VERTEX == 0 ==> x <= r[n] <= x + 1.0)
    && (n % FLOATS_PER_VERTEX == 1 ==> y <= r[n] <= y + 1.0)
    && (n % FLOATS_PER_VERTEX == 2 ==> z <= r[n] <= z + 1.0)
    && (n % FLOATS_PER_VERTEX == 3 ==>
          tex as real / ATLAS_TILES as real <= r[n] <= (tex + 1) as real / ATLAS_TILES as real)
    && (n % FLOATS_PER_VERTEX == 4 ==> 0.0 <= r[n] <= 1.0)
  }

  /** Every value of a face buffer `r` lies in range. */
  predicate AllInRange(r: seq<real>, x: real, y: real, z: real, tex: int) {
    forall n | 0 <= n < |r| :: ValueInRange(r, n, x, y, z, tex)
  }

  /** A vertex is a point of the cell's unit cube, with u inside the tile
      [tex/3, (tex+1)/3] and v inside [0, 1]. */
  lemma VertexInRange(x: real, y: real, z: real, face: int, i: int, tex: int)
    requires 0 <= face < FACES && 0 <= i < VERTICES_PER_FACE
    ensures var v := Vertex(x, y, z, face, i, tex);
      && x <= v[0] <= x + 1.0 && y <= v[1] <= y + 1.0 && z <= v[2] <= z + 1.0
      && tex as real / ATLAS_TILES as real <= v[3] <= (tex + 1) as real / ATLAS_TILES as real
      && 0.0 <= v[4] <= 1.0
  {
  }

  lemma RemainderOfVertexSlot(q: int, j: int)
    requires 0 <= q && 0 <= j < FLOATS_PER_VERTEX
    ensures (FLOATS_PER_VERTEX * q + j) % FLOATS_PER_VERTEX == j
  {
  }

  /** Appending one in-range vertex to an in-range buffer of whole vertices
      keeps every value in range. */
  lemma AppendVertexInRange(prev: seq<real>, v: seq<real>, q: int, x: real, y: real, z: real, tex: int)
    requires 0 <= q && |prev| == FLOATS_PER_VERTEX * q && |v| == FLOATS_PER_VERTEX
    requires AllInRange(prev, x, y, z, tex)
    requires x <= v[0] <= x + 1.0 && y <= v[1] <= y + 1.0 && z <= v[2] <= z + 1.0
    requires tex as real / ATLAS_TILES as real <= v[3] <= (tex + 1) as real / ATLAS_TILES as real
    requires 0.0 <= v[4] <= 1.0
    ensures AllInRange(prev + v, x, y, z, tex)
  {
    var r := prev + v;
    forall n | 0 <= n < |r|
      ensures ValueInRange(r, n, x, y, z, tex)
    {
      if n < |prev| {
        assert r[n] == prev[n];
        assert ValueInRange(prev, n, x, y, z, tex);
      } else {
        var j := n - |prev|;
        assert r[n] == v[j];
        RemainderOfVertexSlot(q, j);
      }
    }
  }

  lemma {:induction false} FaceVerticesUpToInRange(x: real, y: real, z: real, face: int, blockType: Byte, k: int)
    requires 0 <= face < FACES && 0 <= k <= VERTICES_PER_FACE
    ensures AllInRange(FaceVerticesUpTo(x, y, z, face, blockType, k), x, y, z, TextureIndex(blockType, face))
  {
    if k > 0 {
      FaceVerticesUpToInRange(x, y, z, face, blockType, k - 1);
      var tex := TextureIndex(blockType, face);
      VertexInRange(x, y, z, face, k - 1, tex);
      AppendVertexInRange(FaceVerticesUpTo(x, y, z, face, blockType, k - 1),
                          Vertex(x, y, z, face, k - 1, tex), k - 1, x, y, z, tex);
    }
  }

  /** Every vertex a face emits lies in the cell's unit cube, with u inside the
      tile [t/3, (t+1)/3] of the block's texture index t and v inside [0, 1]. */
  lemma FaceVerticesInRange(x: real, y: real, z: real, face: int, blockType: Byte)
    requires 0 <= face < FACES
    ensures AllInRange(FaceVertices(x, y, z, face, blockType), x, y, z, TextureIndex(blockType, face))
  {
    FaceVerticesUpToInRange(x, y, z, face, blockType, VERTICES_PER_FACE);
  }

  // ---------------------------------------------------------------------------
  // The mesh of a grid
  // ---------------------------------------------------------------------------

  /** Face `face` of cell (x, y, z) is emitted: the cell is solid and the
      neighbour on that side is Air or outside the chunk. */
  predicate Exposed(g: Grid, x: int, y: int, z: int, face: int)
    requires 0 <= face < FACES
  {
    var (dx, dy, dz) := Neighbour(face);
    InChunk(x, y, z) && g[x][y][z] != BLOCK_AIR && AirAt(g, x + dx, y + dy, z + dz)
  }

  /** A face between two solid cells is hidden; a solid cell's face on the
      chunk border is always shown, whatever the next chunk holds. */
  lemma ExposedAtBorders(g: Grid, x: int, y: int, z: int, face: int)
    requires 0 <= face < FACES
    ensures var (dx, dy, dz) := Neighbour(face);
      InChunk(x + dx, y + dy, z + dz) && g[x + dx][y + dy][z + dz] != BLOCK_AIR ==> !Exposed(g, x, y, z, face)
    ensures var (dx, dy, dz) := Neighbour(face);
      InChunk(x, y, z) && g[x][y][z] != BLOCK_AIR && !InChunk(x + dx, y + dy, z + dz) ==> Exposed(g, x, y, z, face)
  {
  }

  /** The floats face `face` of cell (x, y, z) contributes: its six vertices
      when it is exposed, nothing otherwise. */
  function FaceIfExposed(g: Grid, x: int, y: int, z: int, face: int): seq<real>
    requires InChunk(x, y, z) && 0 <= face < FACES
  {
    if Exposed(g, x, y, z, face)
    then FaceVertices(x as real, y as real, z as real, face, g[x][y][z])
    else []
  }

  /** Faces 0 .. k-1 of a cell, in the order the mesh build tests them. */
  function FaceMesh(g: Grid, x: int, y: int, z: int, k: int): seq<real>
    requires InChunk(x, y, z) && 0 <= k <= FACES
  {
    if k == 0 then [] else FaceMesh(g, x, y, z, k - 1) + FaceIfExposed(g, x, y, z, k - 1)
  }

  /** Concatenation of buffers is associative. */
  lemma AppendAssoc(a: seq<real>, b: seq<real>, c: seq<real>)
    ensures (a + b) + c == a + (b + c)
  {
  }

  /** Appending the next face of a cell to a buffer ending in its first k faces
      leaves a buffer ending in its first k + 1 faces. */
  lemma FaceMeshStep(g: Grid, x: int, y: int, z: int, k: int, prefix: seq<real>)
    requires InChunk(x, y, z) && 0 <= k < FACES
    ensures (prefix + FaceMesh(g, x, y, z, k)) + FaceIfExposed(g, x, y, z, k)
            == prefix + FaceMesh(g, x, y, z, k + 1)
  {
    AppendAssoc(prefix, FaceMesh(g, x, y, z, k), FaceIfExposed(g, x, y, z, k));
  }

  /** The floats emitted for one cell: nothing for Air. */
  function CellMesh(g: Grid, x: int, y: int, z: int): seq<real>
    requires InChunk(x, y, z)
  {
    if g[x][y][z] == BLOCK_AIR then [] else FaceMesh(g, x, y, z, FACES)
  }

  /** Cells (x, y, 0) .. (x, y, k-1). */
  function RowMesh(g: Grid, x: int, y: int, k: int): seq<real>
    requires 0 <= x < CHUNK_SIZE && 0 <= y < CHUNK_SIZE && 0 <= k <= CHUNK_SIZE
  {
    if k == 0 then [] else RowMesh(g, x, y, k - 1) + CellMesh(g, x, y, k - 1)
  }

  /** Rows (x, 0) .. (x, k-1). */
  function SliceMesh(g: Grid, x: int, k: int): seq<real>
    requires 0 <= x < CHUNK_SIZE && 0 <= k <= CHUNK_SIZE
  {
    if k == 0 then [] else SliceMesh(g, x, k - 1) + RowMesh(g, x, k - 1, CHUNK_SIZE)
  }

  /** Slices 0 .. k-1. */
  function GridMesh(g: Grid, k: int): seq<real>
    requires 0 <= k <= CHUNK_SIZE
  {
    if k == 0 then [] else GridMesh(g, k - 1) + SliceMesh(g, k - 1, CHUNK_SIZE)
  }

  /** The vertex buffer the mesh build leaves behind: x outermost, then y, then
      z, then the six faces in order. */
  function BuildMesh(g: Grid): (m: seq<real>)
    ensures |m| == FLOATS_PER_FACE * |ExposedFaces(g)|
  {
    GridMeshSize(g, CHUNK_SIZE);
    ExposedFacesInRange(g);
    assert GridFaces(g, CHUNK_SIZE) == ExposedFaces(g);
    GridMesh(g, CHUNK_SIZE)
  }

  // ---------------------------------------------------------------------------
  // Exposed faces, counted
  // ---------------------------------------------------------------------------

  type FaceId = (int, int, int, int)

  /** All (cell, direction) pairs whose face the mesh must show. */
  ghost function ExposedFaces(g: Grid): set<FaceId> {
    set x, y, z, d | 0 <= x < CHUNK_SIZE && 0 <= y < CHUNK_SIZE && 0 <= z < CHUNK_SIZE
                  && 0 <= d < FACES && Exposed(g, x, y, z, d) :: (x, y, z, d)
  }

  /** Every exposed face names a solid cell of the chunk and one of the six
      directions. */
  lemma ExposedFacesInRange(g: Grid)
    ensures forall f | f in ExposedFaces(g) ::
      InChunk(f.0, f.1, f.2) && 0 <= f.3 < FACES && Exposed(g, f.0, f.1, f.2, f.3)
  {
  }

  lemma ExposedFaceMember(g: Grid, x: int, y: int, z: int, d: int)
    requires InChunk(x, y, z) && 0 <= d < FACES
    ensures (x, y, z, d) in ExposedFaces(g) <==> Exposed(g, x, y, z, d)
  {
  }

  /** The exposed faces among the first k directions of cell (x, y, z). */
  ghost function CellFaces(g: Grid, x: int, y: int, z: int, k: int): set<FaceId> {
    set f | f in ExposedFaces(g) && f.0 == x && f.1 == y && f.2 == z && f.3 < k
  }

  /** The exposed faces of cells (x, y, 0) .. (x, y, k-1). */
  ghost function RowFaces(g: Grid, x: int, y: int, k: int): set<FaceId> {
    set f | f in ExposedFaces(g) && f.0 == x && f.1 == y && f.2 < k
  }

  /** The exposed faces of rows (x, 0) .. (x, k-1). */
  ghost function SliceFaces(g: Grid, x: int, k: int): set<FaceId> {
    set f | f in ExposedFaces(g) && f.0 == x && f.1 < k
  }

  /** The exposed faces of slices 0 .. k-1. */
  ghost function GridFaces(g: Grid, k: int): set<FaceId> {
    set f | f in ExposedFaces(g) && f.0 < k
  }

  /** Direction d of a cell adds one face to its count exactly when it is
      exposed. */
  lemma CellFacesStep(g: Grid, x: int, y: int, z: int, d: int)
    requires InChunk(x, y, z) && 0 <= d < FACES
    ensures |CellFaces(g, x, y, z, d + 1)| ==
            |CellFaces(g, x, y, z, d)| + (if (x, y, z, d) in ExposedFaces(g) then 1 else 0)
  {
    var prev, cur := CellFaces(g, x, y, z, d), CellFaces(g, x, y, z, d + 1);
    if (x, y, z, d) in ExposedFaces(g) {
      assert cur == prev + {(x, y, z, d)} && (x, y, z, d) !in prev;
    } else {
      forall f | f in cur
        ensures f in prev
      {
        assert f == (x, y, z, f.3) && f.3 != d;
      }
      assert cur == prev;
    }
  }

  /** An exposed face contributes 30 floats, any other none. */
  lemma FaceIfExposedSize(g: Grid, x: int, y: int, z: int, d: int)
    requires InChunk(x, y, z) && 0 <= d < FACES
    ensures |FaceIfExposed(g, x, y, z, d)| == if (x, y, z, d) in ExposedFaces(g) then FLOATS_PER_FACE else 0
  {
    ExposedFaceMember(g, x, y, z, d);
  }

  lemma {:induction false} FaceMeshSize(g: Grid, x: int, y: int, z: int, k: int)
    requires InChunk(x, y, z) && 0 <= k <= FACES
    ensures |FaceMesh(g, x, y, z, k)| == FLOATS_PER_FACE * |CellFaces(g, x, y, z, k)|
  {
    if k > 0 {
      FaceMeshSize(g, x, y, z, k - 1);
      CellFacesStep(g, x, y, z, k - 1);
      FaceIfExposedSize(g, x, y, z, k - 1);
    }
  }

  lemma CellMeshSize(g: Grid, x: int, y: int, z: int)
    requires InChunk(x, y, z)
    ensures |CellMesh(g, x, y, z)| == FLOATS_PER_FACE * |CellFaces(g, x, y, z, FACES)|
  {
    if g[x][y][z] == BLOCK_AIR {
      ExposedFacesInRange(g);
      assert CellFaces(g, x, y, z, FACES) == {};
    } else {
      FaceMeshSize(g, x, y, z, FACES);
    }
  }

  lemma {:induction false} RowMeshSize(g: Grid, x: int, y: int, k: int)
    requires 0 <= x < CHUNK_SIZE && 0 <= y < CHUNK_SIZE && 0 <= k <= CHUNK_SIZE
    ensures |RowMesh(g, x, y, k)| == FLOATS_PER_FACE * |RowFaces(g, x, y, k)|
  {
    if k > 0 {
      RowMeshSize(g, x, y, k - 1);
      CellMeshSize(g, x, y, k - 1);
      ExposedFacesInRange(g);
      var prev, cell := RowFaces(g, x, y, k - 1), CellFaces(g, x, y, k - 1, FACES);
      assert RowFaces(g, x, y, k) == prev + cell;
      assert prev * cell == {};
    }
  }

  lemma {:induction false} SliceMeshSize(g: Grid, x: int, k: int)
    requires 0 <= x < CHUNK_SIZE && 0 <= k <= CHUNK_SIZE
    ensures |SliceMesh(g, x, k)| == FLOATS_PER_FACE * |SliceFaces(g, x, k)|
  {
    if k > 0 {
      SliceMeshSize(g, x, k - 1);
      RowMeshSize(g, x, k - 1, CHUNK_SIZE);
      ExposedFacesInRange(g);
      var prev, row := SliceFaces(g, x, k - 1), RowFaces(g, x, k - 1, CHUNK_SIZE);
      assert SliceFaces(g, x, k) == prev + row;
      assert prev * row == {};
    }
  }

  lemma {:induction false} GridMeshSize(g: Grid, k: int)
    requires 0 <= k <= CHUNK_SIZE
    ensures |GridMesh(g, k)| == FLOATS_PER_FACE * |GridFaces(g, k)|
  {
    if k > 0 {
      GridMeshSize(g, k - 1);
      SliceMeshSize(g, k - 1, CHUNK_SIZE);
      ExposedFacesInRange(g);
      var prev, slice := GridFaces(g, k - 1), SliceFaces(g, k - 1, CHUNK_SIZE);
      assert GridFaces(g, k) == prev + slice;
      assert prev * slice == {};
    }
  }

  /** The faces of a lone solid cell: all six of its own, and nothing else. */
  lemma LoneCellFaces(g: Grid, x: int, y: int, z: int)
    requires InChunk(x, y, z) && g[x][y][z] != BLOCK_AIR
    requires forall i, j, k | InChunk(i, j, k) && (i != x || j != y || k != z) :: g[i][j][k] == BLOCK_AIR
    ensures ExposedFaces(g) == {(x, y, z, 0), (x, y, z, 1), (x, y, z, 2), (x, y, z, 3), (x, y, z, 4), (x, y, z, 5)}
  {
    forall f | f in ExposedFaces(g)
      ensures f.0 == x && f.1 == y && f.2 == z && 0 <= f.3 < FACES
    {
      assert InChunk(f.0, f.1, f.2) && g[f.0][f.1][f.2] != BLOCK_AIR;
    }
    forall d | 0 <= d < FACES
      ensures (x, y, z, d) in ExposedFaces(g)
    {
      var (dx, dy, dz) := Neighbour(d);
      assert dx != 0 || dy != 0 || dz != 0;
      assert Exposed(g, x, y, z, d);
    }
  }

  /** A single solid cell in an otherwise empty chunk shows all six faces:
      36 vertices, 180 floats. */
  lemma LoneCellMesh(g: Grid, x: int, y: int, z: int)
    requires InChunk(x, y, z) && g[x][y][z] != BLOCK_AIR
    requires forall i, j, k | InChunk(i, j, k) && (i != x || j != y || k != z) :: g[i][j][k] == BLOCK_AIR
    ensures |ExposedFaces(g)| == FACES
    ensures |BuildMesh(g)| == 180
  {
    LoneCellFaces(g, x, y, z);
  }
}
