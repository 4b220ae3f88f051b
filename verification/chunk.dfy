/** The chunk object of src/Chunk.h: a 16x16x16 block array filled in place,
    and a vertex buffer that the mesh build clears and appends to. */
module Chunks {
  import opened Voxel
  import opened Mesh

  class Chunk {
    /** m_blocks[x][y][z] */
    var blocks: array3<Byte>
    /** m_vertices: interleaved (x, y, z, u, v) floats, 6 vertices per face */
    var vertices: seq<real>

    ghost predicate Valid()
      reads this`blocks
    {
      blocks.Length0 == CHUNK_SIZE && blocks.Length1 == CHUNK_SIZE && blocks.Length2 == CHUNK_SIZE
    }

    /** The block contents as a value. */
    ghost function Cells(): Grid
      reads this`blocks, blocks
      requires Valid()
    {
      var a := blocks;
      seq(CHUNK_SIZE, x requires 0 <= x < CHUNK_SIZE reads a =>
        seq(CHUNK_SIZE, y requires 0 <= y < CHUNK_SIZE reads a =>
          seq(CHUNK_SIZE, z requires 0 <= z < CHUNK_SIZE reads a => a[x, y, z])))
    }

    /** A new chunk holds nothing but Air and an empty vertex buffer. */
    constructor ()
      ensures Valid() && fresh(blocks)
      ensures forall x, y, z | InChunk(x, y, z) :: Cells()[x][y][z] == BLOCK_AIR
      ensures vertices == []
    {
      var a := new Byte[CHUNK_SIZE, CHUNK_SIZE, CHUNK_SIZE];
      for x := 0 to CHUNK_SIZE
        invariant forall i, j, k | 0 <= i < x && 0 <= j < CHUNK_SIZE && 0 <= k < CHUNK_SIZE :: a[i, j, k] == BLOCK_AIR
      {
        for y := 0 to CHUNK_SIZE
          invariant forall i, j, k | 0 <= i < x && 0 <= j < CHUNK_SIZE && 0 <= k < CHUNK_SIZE :: a[i, j, k] == BLOCK_AIR
          invariant forall j, k | 0 <= j < y && 0 <= k < CHUNK_SIZE :: a[x, j, k] == BLOCK_AIR
        {
          for z := 0 to CHUNK_SIZE
            invariant forall i, j, k | 0 <= i < x && 0 <= j < CHUNK_SIZE && 0 <= k < CHUNK_SIZE :: a[i, j, k] == BLOCK_AIR
            invariant forall j, k | 0 <= j < y && 0 <= k < CHUNK_SIZE :: a[x, j, k] == BLOCK_AIR
            invariant forall k | 0 <= k < z :: a[x, y, k] == BLOCK_AIR
          {
            a[x, y, z] := BLOCK_AIR;
          }
        }
      }
      blocks := a;
      vertices := [];
    }

    /** Fills every column of chunk (chunkX, chunkZ) from its noise sample:
        Air above the surface height, Dirt at and just below it, Stone deeper.
        Both chunk coordinates default to 0. */
    method InitData(noise: (real, real) -> real, chunkX: int := 0, chunkZ: int := 0)
      requires Valid()
      modifies blocks
      ensures Valid()
      ensures Cells() == Terrain(chunkX, chunkZ, noise)
    {
      for x := 0 to CHUNK_SIZE
        invariant forall i, j, k | 0 <= i < x && 0 <= j < CHUNK_SIZE && 0 <= k < CHUNK_SIZE ::
          blocks[i, j, k] == ColumnBlock(ColumnHeight(chunkX, chunkZ, noise, i, k), j)
      {
        for z := 0 to CHUNK_SIZE
          invariant forall i, j, k | 0 <= i < x && 0 <= j < CHUNK_SIZE && 0 <= k < CHUNK_SIZE ::
            blocks[i, j, k] == ColumnBlock(ColumnHeight(chunkX, chunkZ, noise, i, k), j)
          invariant forall j, k | 0 <= j < CHUNK_SIZE && 0 <= k < z ::
            blocks[x, j, k] == ColumnBlock(ColumnHeight(chunkX, chunkZ, noise, x, k), j)
        {
          var worldX := chunkX * CHUNK_SIZE + x;
          var worldZ := chunkZ * CHUNK_SIZE + z;
          var noiseValue := noise(worldX as real * NOISE_SCALE, worldZ as real * NOISE_SCALE);
          var terrainHeight := BASE_HEIGHT + Trunc(noiseValue * HEIGHT_RANGE as real);
          terrainHeight := if terrainHeight < 1 then 1 else terrainHeight;
          terrainHeight := if terrainHeight >= CHUNK_SIZE then CHUNK_SIZE - 1 else terrainHeight;
          assert terrainHeight == ColumnHeight(chunkX, chunkZ, noise, x, z);
          for y := 0 to CHUNK_SIZE
            invariant forall i, j, k | 0 <= i < x && 0 <= j < CHUNK_SIZE && 0 <= k < CHUNK_SIZE ::
              blocks[i, j, k] == ColumnBlock(ColumnHeight(chunkX, chunkZ, noise, i, k), j)
            invariant forall j, k | 0 <= j < CHUNK_SIZE && 0 <= k < z ::
              blocks[x, j, k] == ColumnBlock(ColumnHeight(chunkX, chunkZ, noise, x, k), j)
            invariant forall j | 0 <= j < y :: blocks[x, j, z] == ColumnBlock(terrainHeight, j)
          {
            if y > terrainHeight {
              blocks[x, y, z] := BLOCK_AIR;
            } else if y == terrainHeight {
              blocks[x, y, z] := BLOCK_DIRT;
            } else if y > terrainHeight - 3 {
              blocks[x, y, z] := BLOCK_DIRT;
            } else {
              blocks[x, y, z] := BLOCK_STONE;
            }
          }
        }
      }
      GridsEqual(Cells(), Terrain(chunkX, chunkZ, noise));
    }

    /** Neighbour test for face culling: outside the chunk counts as Air. */
    function IsAir(x: int, y: int, z: int): (r: bool)
      reads this`blocks, blocks
      requires Valid()
      ensures !InChunk(x, y, z) ==> r
      ensures InChunk(x, y, z) ==> (r <==> blocks[x, y, z] == BLOCK_AIR)
    {
      if x < 0 || x >= CHUNK_SIZE || y < 0 || y >= CHUNK_SIZE || z < 0 || z >= CHUNK_SIZE then true
      else blocks[x, y, z] == BLOCK_AIR
    }

    /** Appends the six vertices of one face of the cell at (x, y, z). */
    method AddFace(x: real, y: real, z: real, face: int, blockType: Byte)
      requires 0 <= face < FACES
      modifies this`vertices
      ensures vertices == old(vertices) + FaceVertices(x, y, z, face, blockType)
    {
      var texIndex := TextureIndex(blockType, face);
      var tileWidth := 1.0 / ATLAS_TILES as real;
      var uOffset := texIndex as real * tileWidth;
      assert tileWidth == TILE_WIDTH && uOffset == texIndex as real * TILE_WIDTH;
      for i := 0 to VERTICES_PER_FACE
        invariant vertices == old(vertices) + FaceVerticesUpTo(x, y, z, face, blockType, i)
      {
        var (dx, dy, dz) := Corner(face, i);
        var (lu, lv) := LocalUV(face, i);
        var u := uOffset + lu as real * tileWidth;
        var v := lv as real;
        assert [x + dx as real, y + dy as real, z + dz as real, u, v] == Vertex(x, y, z, face, i, texIndex);
        AppendAssoc(old(vertices), FaceVerticesUpTo(x, y, z, face, blockType, i), Vertex(x, y, z, face, i, texIndex));
        vertices := vertices + [x + dx as real, y + dy as real, z + dz as real, u, v];
      }
    }

    /** Rebuilds the vertex buffer from scratch: for every solid cell, each face
        whose neighbour is Air or outside the chunk. */
    method UpdateMesh()
      requires Valid()
      modifies this`vertices
      ensures vertices == BuildMesh(Cells())
      ensures |vertices| == FLOATS_PER_FACE * |ExposedFaces(Cells())|
    {
      ghost var g := Cells();
      vertices := [];
      for x := 0 to CHUNK_SIZE
        invariant Holds(g)
        invariant vertices == GridMesh(g, x)
      {
        AddSlice(g, x);
      }
      CellsAre(g);
    }

    /** The middle loop of the mesh build: the rows (x, 0) .. (x, 15). */
    method AddSlice(ghost g: Grid, x: int)
      requires Valid() && Holds(g) && 0 <= x < CHUNK_SIZE
      modifies this`vertices
      ensures vertices == old(vertices) + SliceMesh(g, x, CHUNK_SIZE)
    {
      for y := 0 to CHUNK_SIZE
        invariant vertices == old(vertices) + SliceMesh(g, x, y)
      {
        AddRow(g, x, y);
        AppendAssoc(old(vertices), SliceMesh(g, x, y), RowMesh(g, x, y, CHUNK_SIZE));
      }
    }

    /** The innermost loop of the mesh build: the cells (x, y, 0) .. (x, y, 15). */
    method AddRow(ghost g: Grid, x: int, y: int)
      requires Valid() && Holds(g) && 0 <= x < CHUNK_SIZE && 0 <= y < CHUNK_SIZE
      modifies this`vertices
      ensures vertices == old(vertices) + RowMesh(g, x, y, CHUNK_SIZE)
    {
      for z := 0 to CHUNK_SIZE
        invariant vertices == old(vertices) + RowMesh(g, x, y, z)
      {
        AppendAssoc(old(vertices), RowMesh(g, x, y, z), CellMesh(g, x, y, z));
        if blocks[x, y, z] == BLOCK_AIR {
          assert CellMesh(g, x, y, z) == [];
          continue;
        }
        AddCellFaces(g, x, y, z);
      }
    }

    /** The body of the mesh build for one solid cell: the six culling tests,
        in face order. */
    method AddCellFaces(ghost g: Grid, x: int, y: int, z: int)
      requires Valid() && Holds(g) && InChunk(x, y, z) && blocks[x, y, z] != BLOCK_AIR
      modifies this`vertices
      ensures vertices == old(vertices) + CellMesh(g, x, y, z)
    {
      ghost var before := vertices;
      var blockType := blocks[x, y, z];
      assert vertices == before + FaceMesh(g, x, y, z, 0);
      CullFace(g, x, y, z, 0, blockType);  // front, z + 1
      FaceMeshStep(g, x, y, z, 0, before);
      CullFace(g, x, y, z, 1, blockType);  // back, z - 1
      FaceMeshStep(g, x, y, z, 1, before);
      CullFace(g, x, y, z, 2, blockType);  // left, x - 1
      FaceMeshStep(g, x, y, z, 2, before);
      CullFace(g, x, y, z, 3, blockType);  // right, x + 1
      FaceMeshStep(g, x, y, z, 3, before);
      CullFace(g, x, y, z, 4, blockType);  // bottom, y - 1
      FaceMeshStep(g, x, y, z, 4, before);
      CullFace(g, x, y, z, 5, blockType);  // top, y + 1
      FaceMeshStep(g, x, y, z, 5, before);
    }

    /** One culling test: appends face `face` of the solid cell (x, y, z) when
        its neighbour on that side is Air or outside the chunk. */
    method CullFace(ghost g: Grid, x: int, y: int, z: int, face: int, blockType: Byte)
      requires Valid() && Holds(g) && InChunk(x, y, z) && 0 <= face < FACES
      requires blockType == g[x][y][z] != BLOCK_AIR
      modifies this`vertices
      ensures vertices == old(vertices) + FaceIfExposed(g, x, y, z, face)
    {
      var (dx, dy, dz) := Neighbour(face);
      CullingTest(g, x, y, z, face);
      if IsAir(x + dx, y + dy, z + dz) {
        AddFace(x as real, y as real, z as real, face, blockType);
      }
    }

    /** Face `face` of a solid cell is exposed exactly when IsAir holds for the
        neighbour the mesh build tests for it. */
    lemma CullingTest(g: Grid, x: int, y: int, z: int, face: int)
      requires Valid() && Holds(g) && InChunk(x, y, z) && 0 <= face < FACES
      ensures var (dx, dy, dz) := Neighbour(face);
        Exposed(g, x, y, z, face) <==> g[x][y][z] != BLOCK_AIR && IsAir(x + dx, y + dy, z + dz)
    {
    }

    lemma CellsAre(g: Grid)
      requires Valid() && Holds(g)
      ensures Cells() == g
    {
      GridsEqual(Cells(), g);
    }

    /** The array holds exactly the cells of g. */
    ghost predicate Holds(g: Grid)
      reads this`blocks, blocks
      requires Valid()
    {
      forall x, y, z | InChunk(x, y, z) :: blocks[x, y, z] == g[x][y][z]
    }
  }
}
