/** Block types, the 16x16x16 block grid of a chunk, terrain generation and the
    texture-atlas tile of each block face (src/Chunk.h). */
module Voxel {

  /** The chunk stores one unsigned byte per cell. */
  newtype Byte = b: int | 0 <= b < 256

  const BLOCK_AIR: Byte := 0
  const BLOCK_STONE: Byte := 1
  const BLOCK_DIRT: Byte := 2
  const BLOCK_GRASS: Byte := 3

  const CHUNK_SIZE: int := 16

  predicate InChunk(x: int, y: int, z: int) {
    0 <= x < CHUNK_SIZE && 0 <= y < CHUNK_SIZE && 0 <= z < CHUNK_SIZE
  }

  predicate IsGrid(g: seq<seq<seq<Byte>>>) {
    && |g| == CHUNK_SIZE
    && (forall x | 0 <= x < CHUNK_SIZE :: |g[x]| == CHUNK_SIZE)
    && (forall x, y | 0 <= x < CHUNK_SIZE && 0 <= y < CHUNK_SIZE :: |g[x][y]| == CHUNK_SIZE)
  }

  /** The block contents of one chunk, indexed g[x][y][z]. */
  type Grid = g: seq<seq<seq<Byte>>> | IsGrid(g)
    witness seq(16, x => seq(16, y => seq(16, z => 0 as Byte)))

  /** Extensionality for grids: two grids with the same cells are equal. */
  lemma GridsEqual(a: Grid, b: Grid)
    requires forall x, y, z | InChunk(x, y, z) :: a[x][y][z] == b[x][y][z]
    ensures a == b
  {
    forall x | 0 <= x < CHUNK_SIZE
      ensures a[x] == b[x]
    {
      forall y | 0 <= y < CHUNK_SIZE
        ensures a[x][y] == b[x][y]
      {
        assert forall z | 0 <= z < CHUNK_SIZE :: a[x][y][z] == b[x][y][z];
      }
    }
  }

  /** The open-boundary convention: every cell outside the chunk reads as Air. */
  predicate AirAt(g: Grid, x: int, y: int, z: int) {
    !InChunk(x, y, z) || g[x][y][z] == BLOCK_AIR
  }

  // ---------------------------------------------------------------------------
  // Terrain generation
  // ---------------------------------------------------------------------------

  const NOISE_SCALE: real := 0.05
  const BASE_HEIGHT: int := 8
  const HEIGHT_RANGE: int := 6

  /** C++'s (int) cast of a floating value: truncation toward zero. */
  function Trunc(r: real): (n: int)
    ensures r >= 0.0 ==> n as real <= r < n as real + 1.0
    ensures r < 0.0 ==> n as real - 1.0 < r <= n as real
  {
    if r >= 0.0 then r.Floor else -((-r).Floor)
  }

  /** Column height for a noise sample: BASE_HEIGHT plus the truncated scaled
      noise, clamped first from below to 1, then from above to CHUNK_SIZE - 1. */
  function TerrainHeight(noiseValue: real): (h: int)
    ensures 1 <= h <= CHUNK_SIZE - 1
    ensures 1 <= BASE_HEIGHT + Trunc(noiseValue * HEIGHT_RANGE as real) < CHUNK_SIZE ==>
              h == BASE_HEIGHT + Trunc(noiseValue * HEIGHT_RANGE as real)
    ensures BASE_HEIGHT + Trunc(noiseValue * HEIGHT_RANGE as real) < 1 ==> h == 1
    ensures BASE_HEIGHT + Trunc(noiseValue * HEIGHT_RANGE as real) >= CHUNK_SIZE ==> h == CHUNK_SIZE - 1
  {
    var raw := BASE_HEIGHT + Trunc(noiseValue * HEIGHT_RANGE as real);
    var low := if raw < 1 then 1 else raw;
    if low >= CHUNK_SIZE then CHUNK_SIZE - 1 else low
  }

  /** For noise within the nominal range [-1, 1] neither clamp is active: the
      height lies in [BASE_HEIGHT - HEIGHT_RANGE, BASE_HEIGHT + HEIGHT_RANGE]. */
  lemma HeightForNominalNoise(noiseValue: real)
    requires -1.0 <= noiseValue <= 1.0
    ensures 2 <= TerrainHeight(noiseValue) <= 14
    ensures TerrainHeight(noiseValue) == BASE_HEIGHT + Trunc(noiseValue * HEIGHT_RANGE as real)
  {
    var s := noiseValue * HEIGHT_RANGE as real;
    assert -6.0 <= s <= 6.0;
    assert -6 <= Trunc(s) <= 6;
  }

  lemma HeightForNominalNoiseIfInRange(noiseValue: real)
    ensures -1.0 <= noiseValue <= 1.0 ==> 2 <= TerrainHeight(noiseValue) <= 14
  {
    if -1.0 <= noiseValue <= 1.0 {
      HeightForNominalNoise(noiseValue);
    }
  }

  /** Block placed at height y of a column whose surface is at h. */
  function ColumnBlock(h: int, y: int): (b: Byte)
    ensures b == BLOCK_AIR <==> y > h
    ensures b == BLOCK_DIRT <==> h - 3 < y <= h
    ensures b == BLOCK_STONE <==> y <= h - 3
  {
    if y > h then BLOCK_AIR
    else if y == h then BLOCK_DIRT
    else if y > h - 3 then BLOCK_DIRT
    else BLOCK_STONE
  }

  /** The noise sample for world column (worldX, worldZ). The noise itself
      (fractal Perlin noise at (worldX * 0.05, 0, worldZ * 0.05), lacunarity 2,
      gain 0.5, 4 octaves) is supplied by the caller as `noise`. */
  function Sample(noise: (real, real) -> real, worldX: int, worldZ: int): real {
    noise(worldX as real * NOISE_SCALE, worldZ as real * NOISE_SCALE)
  }

  /** Surface height of local column (x, z) of chunk (chunkX, chunkZ). */
  function ColumnHeight(chunkX: int, chunkZ: int, noise: (real, real) -> real, x: int, z: int): (h: int)
    ensures 1 <= h <= CHUNK_SIZE - 1
    ensures -1.0 <= Sample(noise, chunkX * CHUNK_SIZE + x, chunkZ * CHUNK_SIZE + z) <= 1.0 ==> 2 <= h <= 14
  {
    HeightForNominalNoiseIfInRange(Sample(noise, chunkX * CHUNK_SIZE + x, chunkZ * CHUNK_SIZE + z));
    TerrainHeight(Sample(noise, chunkX * CHUNK_SIZE + x, chunkZ * CHUNK_SIZE + z))
  }

  /** The grid that terrain generation writes for chunk (chunkX, chunkZ). */
  function Terrain(chunkX: int, chunkZ: int, noise: (real, real) -> real): (g: Grid)
    ensures forall x, y, z | InChunk(x, y, z) ::
      && (g[x][y][z] == BLOCK_AIR <==> y > ColumnHeight(chunkX, chunkZ, noise, x, z))
      && g[x][y][z] != BLOCK_GRASS
  {
    seq(CHUNK_SIZE, x =>
      seq(CHUNK_SIZE, y =>
        seq(CHUNK_SIZE, z => ColumnBlock(ColumnHeight(chunkX, chunkZ, noise, x, z), y))))
  }

  /** Every generated column is Air above the surface, Dirt on the surface and
      the two cells below it, and Stone deeper down; no Air lies below a solid
      cell and Grass is never produced. */
  lemma TerrainColumnShape(chunkX: int, chunkZ: int, noise: (real, real) -> real, x: int, z: int)
    requires 0 <= x < CHUNK_SIZE && 0 <= z < CHUNK_SIZE
    ensures var g, h := Terrain(chunkX, chunkZ, noise), ColumnHeight(chunkX, chunkZ, noise, x, z);
      && 1 <= h <= CHUNK_SIZE - 1
      && (forall y | 0 <= y < CHUNK_SIZE ::
            && (g[x][y][z] == BLOCK_AIR <==> y > h)
            && (g[x][y][z] == BLOCK_DIRT <==> h - 3 < y <= h)
            && (g[x][y][z] == BLOCK_STONE <==> y <= h - 3)
            && g[x][y][z] != BLOCK_GRASS)
      && (forall y, y' | 0 <= y' < y < CHUNK_SIZE ::
            g[x][y][z] != BLOCK_AIR ==> g[x][y'][z] != BLOCK_AIR)
  {
  }

  /** Terrain generation is a function of the chunk coordinates and the noise:
      two chunks given the same inputs hold the same grid. */
  lemma TerrainDeterministic(chunkX: int, chunkZ: int, noise: (real, real) -> real,
                             noise': (real, real) -> real)
    requires forall a, b :: noise(a, b) == noise'(a, b)
    ensures Terrain(chunkX, chunkZ, noise) == Terrain(chunkX, chunkZ, noise')
  {
    GridsEqual(Terrain(chunkX, chunkZ, noise), Terrain(chunkX, chunkZ, noise'));
  }

  // ---------------------------------------------------------------------------
  // Texture atlas
  // ---------------------------------------------------------------------------

  /** Number of equal-width tiles laid out horizontally in the atlas:
      dirt (0), stone (1), grass top (2). */
  const ATLAS_TILES: int := 3

  /** Atlas tile for `face` (0 front, 1 back, 2 left, 3 right, 4 bottom, 5 top)
      of a block of type `blockType`. */
  function TextureIndex(blockType: Byte, face: int): (t: int)
    ensures 0 <= t < ATLAS_TILES
    ensures t == 1 <==> blockType == BLOCK_STONE
    ensures t == 2 <==> blockType == BLOCK_GRASS && face == 5
    ensures t == 0 <==> !(blockType == BLOCK_STONE || (blockType == BLOCK_GRASS && face == 5))
  {
    if blockType == BLOCK_STONE then 1
    else if blockType == BLOCK_DIRT then 0
    else if blockType == BLOCK_GRASS then
      if face == 5 then 2
      else if face == 4 then 0
      else 0
    else 0
  }
}
