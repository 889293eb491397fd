/**
 The vocabulary of the Archipelago rasterizer: the five block kinds it places,
 the biome tags it reads, and the one liquid marker it writes.
 */
module Blocks {

  /** An optional value: a write that may or may not happen. */
  datatype Option<+T> = None | Some(value: T)

  /** The block kinds resolved once at start-up (`core:stone`, `core:Sand`,
      `core:Grass`, `core:Dirt`, `core:water`). */
  datatype Block = Stone | Sand | Grass | Dirt | Water

  /** The biome tag of a column. The six core biomes the classification table
      lists by name, `OtherCore` for a core biome value the table does not list
      (snow), and `NonCore` for a biome that is not a core biome at all. */
  datatype Biome = Forest | Plains | Mountains | Desert | Ocean | Beach | OtherCore | NonCore

  /** The liquid marker placed on submerged voxels: water at the host's
      maximum liquid depth. */
  datatype Liquid = FullWater

  /** The biomes whose surface is grass-topped dirt over stone. */
  predicate IsGrassland(b: Biome) {
    b == Forest || b == Plains || b == Mountains
  }

  /** The biomes the classification table names explicitly. */
  predicate IsListed(b: Biome) {
    IsGrassland(b) || b == Desert || b == Ocean || b == Beach
  }
}
