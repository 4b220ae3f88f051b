/** Resolution of world block coordinates to a chunk and a cell inside it, and
    the solid-block lookup in the map of loaded chunks (src/Player.h). */
module WorldIndex {
  import opened Voxel

  /** Loaded chunks by (chunkX, chunkZ); a chunk is represented by its cells. */
  type World = map<(int, int), Grid>

  /** C++ integer division by a positive divisor: truncation toward zero. */
  function TruncDiv(a: int, b: int): (q: int)
    requires b > 0
    ensures a >= 0 ==> q * b <= a < q * b + b
    ensures a < 0 ==> q * b - b < a <= q * b
  {
    if a >= 0 then a / b else -((-a) / b)
  }

  /** Chunk column holding world coordinate x: x / 16 for x >= 0 and
      (x - 15) / 16 below zero, both truncating. */
  function ChunkCoord(x: int): (c: int)
    ensures c * CHUNK_SIZE <= x < c * CHUNK_SIZE + CHUNK_SIZE
    ensures c == (x as real / CHUNK_SIZE as real).Floor
  {
    if x >= 0 then TruncDiv(x, CHUNK_SIZE) else TruncDiv(x - 15, CHUNK_SIZE)
  }

  /** Offset of world coordinate x inside its chunk. */
  function LocalCoord(x: int): (l: int)
    ensures 0 <= l < CHUNK_SIZE
    ensures ChunkCoord(x) * CHUNK_SIZE + l == x
    ensures l == x % CHUNK_SIZE
  {
    x - ChunkCoord(x) * CHUNK_SIZE
  }

  /** Coordinate -1 lies in chunk -1 at offset 15; -16 is the first cell of
      chunk -1 and -17 the last of chunk -2. */
  lemma NegativeCoordinates()
    ensures ChunkCoord(-1) == -1 && LocalCoord(-1) == 15
    ensures ChunkCoord(-16) == -1 && LocalCoord(-16) == 0
    ensures ChunkCoord(-17) == -2 && LocalCoord(-17) == 15
  {
  }

  /** A block is solid when its chunk is loaded, y is inside [0, 16) and the
      cell is not Air; a missing chunk or any other y reads as not solid. */
  function IsBlockSolid(x: int, y: int, z: int, world: World): (r: bool)
    ensures r <==> && (x / CHUNK_SIZE, z / CHUNK_SIZE) in world
                   && 0 <= y < CHUNK_SIZE
                   && world[(x / CHUNK_SIZE, z / CHUNK_SIZE)][x % CHUNK_SIZE][y][z % CHUNK_SIZE] != BLOCK_AIR
  {
    var chunkX := ChunkCoord(x);
    var chunkZ := ChunkCoord(z);
    var localX := x - chunkX * CHUNK_SIZE;
    var localZ := z - chunkZ * CHUNK_SIZE;
    if (chunkX, chunkZ) !in world then false
    else if localX < 0 || localX >= CHUNK_SIZE || y < 0 || y >= CHUNK_SIZE
            || localZ < 0 || localZ >= CHUNK_SIZE then false
    else world[(chunkX, chunkZ)][localX][y][localZ] != BLOCK_AIR
  }

  /** Only the loaded chunk addressed by (x, z) matters: changing or adding
      other chunks leaves the answer unchanged. */
  lemma IsBlockSolidLocal(x: int, y: int, z: int, world: World, world': World)
    requires var key := (ChunkCoord(x), ChunkCoord(z));
      (key in world <==> key in world') && (key in world ==> world[key] == world'[key])
    ensures IsBlockSolid(x, y, z, world) == IsBlockSolid(x, y, z, world')
  {
  }
}
