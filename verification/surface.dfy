/**
 The per-biome surface classification: which block a near-surface voxel
 becomes, given how far below the terrain surface it sits, its world height,
 the biome of its column and the sea level.
 */
module Surface {
  import opened Blocks

  /** The height band, strictly above sea level and strictly below 96 blocks
      above it, in which a grassland surface voxel is grass. */
  predicate InGrassBand(height: int, seaLevel: int) {
    seaLevel < height < seaLevel + 96
  }

  /** The classification table, read one block kind at a time. `depth` is the
      floored surface height minus the voxel's world height, so 0 is the
      surface layer and positive values lie below it. */
  function SurfaceBlock(depth: int, height: int, biome: Biome, seaLevel: int): (r: Block)
    ensures r != Water
    ensures r == Grass <==> IsGrassland(biome) && depth == 0 && InGrassBand(height, seaLevel)
    ensures r == Stone <==>
              || (IsGrassland(biome) && depth > 32)
              || (biome == Desert && depth > 8)
              || (biome == Ocean && depth != 0)
              || (biome == Beach && depth >= 3)
    ensures r == Sand <==>
              || (biome == Desert && depth <= 8)
              || (biome == Ocean && depth == 0)
              || (biome == Beach && depth < 3)
    ensures r == Dirt <==>
              || !IsListed(biome)
              || (IsGrassland(biome) && depth <= 32 && !(depth == 0 && InGrassBand(height, seaLevel)))
  {
    match biome
    case Forest | Plains | Mountains =>
      if depth == 0 && height > seaLevel && height < seaLevel + 96 then Grass
      else if depth > 32 then Stone
      else Dirt
    case Desert =>
      if depth > 8 then Stone else Sand
    case Ocean =>
      if depth == 0 then Sand else Stone
    case Beach =>
      if depth < 3 then Sand else Stone
    case OtherCore | NonCore =>
      Dirt
  }

  /** World height and sea level matter only for the grass decision, and only
      through their difference: lifting both by the same amount changes nothing. */
  lemma VerticalShift(depth: int, height: int, biome: Biome, seaLevel: int, k: int)
    ensures SurfaceBlock(depth, height + k, biome, seaLevel + k) == SurfaceBlock(depth, height, biome, seaLevel)
  {
  }

  /** Two voxels at the same depth in the same biome can differ only when the
      biome is a grassland and the voxel is on the surface layer, and then one
      of them is grass and the other dirt. */
  lemma HeightOnlyDecidesGrass(depth: int, h1: int, s1: int, h2: int, s2: int, biome: Biome)
    requires SurfaceBlock(depth, h1, biome, s1) != SurfaceBlock(depth, h2, biome, s2)
    ensures IsGrassland(biome) && depth == 0
    ensures {SurfaceBlock(depth, h1, biome, s1), SurfaceBlock(depth, h2, biome, s2)} == {Grass, Dirt}
  {
  }

  /** Stone is closed downwards: a voxel deeper than a stone voxel of the same
      column setting is stone as well, except in the ocean from above its surface. */
  lemma StoneDeepens(d1: int, d2: int, height1: int, height2: int, biome: Biome, seaLevel: int)
    requires biome != Ocean || d1 > 0
    requires d1 <= d2
    requires SurfaceBlock(d1, height1, biome, seaLevel) == Stone
    ensures SurfaceBlock(d2, height2, biome, seaLevel) == Stone
  {
  }

  /** The ocean is the exception: a voxel above the surface (negative depth)
      is stone while the surface layer below it is sand. */
  lemma OceanStoneAboveSand(height: int, seaLevel: int)
    ensures SurfaceBlock(-1, height, Ocean, seaLevel) == Stone
    ensures SurfaceBlock(0, height, Ocean, seaLevel) == Sand
  {
  }

  /** Sand occurs only in the sandy biomes and never below depth 8. */
  lemma SandIsShallow(depth: int, height: int, biome: Biome, seaLevel: int)
    requires SurfaceBlock(depth, height, biome, seaLevel) == Sand
    ensures biome == Desert || biome == Ocean || biome == Beach
    ensures depth <= 8
  {
  }
}
