# Archipelago voxel rasterizer, modelled in Dafny

The Archipelago world generator turns per-column terrain data into the blocks
of a chunk. Its rasterizer walks over every voxel of a chunk and does four things:

- It tags the voxel with its column's biome.
- A voxel with density of at least 32 (solid interior) becomes stone.
- A voxel with density in [0, 32) is classified by a per-biome table. The table
  looks at the voxel's depth below the floored surface height, its world height
  and the sea level.
- A voxel with negative density becomes water with a full-depth water liquid,
  but only at or below sea level. Above sea level it is left alone.

The project has three modules:

- `Blocks` (`blocks.dfy`) defines the block kinds, biome tags and liquid marker.
  The biome type has the six core biomes the table names. It also has
  `OtherCore`, a core biome the table does not list, and `NonCore`, a biome
  that is not a core biome at all.
- `Surface` (`surface.dfy`) holds the classification table `SurfaceBlock` and
  lemmas about it.
- `Rasterizer` (`rasterizer.dfy`) holds the per-voxel decision `Decide`, the
  single-voxel write `WriteVoxel`, the loop `WriteRegion` and `GenerateChunk`, which runs the loop over the chunk region. The
  chunk is three maps from chunk-local positions to block, liquid and biome; a
  position absent from a map keeps the host's value. The facets are total
  functions for density, surface height and biome, plus one sea level.
  `IsRasterization` says what writing a region of voxels into a chunk
  produces; `GenerateChunk` produces it for the chunk region. Lemmas show it
  is unique, so the iteration order does not matter, and idempotent. Further lemmas derive
  each per-voxel rule from it.

Density and surface height are `real`s. The surface height goes through
`Floor`, as `TeraMath.floorToInt` does.

## Model

| member | source | states |
|---|---|---|
| Surface.SurfaceBlock | src/main/java/org/Terasology/Archipelago/ArchipelagoRasterizer.java:84-120 | Per block kind, exactly which inputs give it. Grass: a forest, plains or mountains voxel at depth 0 strictly between sea level and sea level + 96. Stone: grassland deeper than 32, desert deeper than 8, ocean at any depth other than 0, beach at depth 3 or more. Sand: desert at depth 8 or less, ocean at depth 0, beach at depth less than 3. Dirt: any unlisted or non-core biome, and grassland otherwise. Water never. |
| Surface.VerticalShift | src/main/java/org/Terasology/Archipelago/ArchipelagoRasterizer.java:91 | Raising the world height and the sea level by the same amount never changes the block. |
| Surface.HeightOnlyDecidesGrass | src/main/java/org/Terasology/Archipelago/ArchipelagoRasterizer.java:84-120 | At a fixed depth and biome, height and sea level can change the block only for a grassland surface voxel, and only between grass and dirt. |
| Surface.StoneDeepens | src/main/java/org/Terasology/Archipelago/ArchipelagoRasterizer.java:87-116 | A voxel deeper than a stone voxel is stone too, in every biome; in the ocean this holds from depth 1 down. |
| Surface.OceanStoneAboveSand | src/main/java/org/Terasology/Archipelago/ArchipelagoRasterizer.java:105-110 | In the ocean, a voxel just above the surface (depth -1) is stone while the surface layer is sand, so stone is not closed downwards there. |
| Surface.SandIsShallow | src/main/java/org/Terasology/Archipelago/ArchipelagoRasterizer.java:98-116 | Sand comes only from desert, ocean or beach, and never deeper than 8. |
| Rasterizer.ChunkRegion | src/main/java/org/Terasology/Archipelago/ArchipelagoRasterizer.java:61 | The region is exactly the positions inside the chunk's extent, and it holds sizeX × sizeY × sizeZ of them, one per voxel. It is built row by row and slab by slab, and each step's contract rests on the previous step's. |
| Rasterizer.Decide | src/main/java/org/Terasology/Archipelago/ArchipelagoRasterizer.java:66-80 | Density of at least 32 gives stone. Density in [0, 32) gives the table's block at depth floor(surface) minus world height. A voxel gets water exactly when its density is negative and it is at or below sea level. Nothing is written exactly when density is negative above sea level. A liquid goes with water and only with it, and it is full-depth water. |
| Rasterizer.WriteVoxel | src/main/java/org/Terasology/Archipelago/ArchipelagoRasterizer.java:62-80 | One loop iteration sets the voxel's biome to its column's and applies the decided block and liquid. It changes no other position and keeps the world offset. |
| Rasterizer.WriteRegion | src/main/java/org/Terasology/Archipelago/ArchipelagoRasterizer.java:61-81 | The loop over a set of positions: every position of the set is written by the per-voxel rule and every other position is unchanged, whatever order the positions are visited in. |
| Rasterizer.GenerateChunk | src/main/java/org/Terasology/Archipelago/ArchipelagoRasterizer.java:52-82 | Every voxel of the region is generated by the per-voxel rule, and every position outside the region is unchanged, whatever order the positions are visited in. |
| Rasterizer.RasterizationUnique | src/main/java/org/Terasology/Archipelago/ArchipelagoRasterizer.java:61-81 | Two generated chunks from the same chunk and facets are equal. |
| Rasterizer.RasterizationIdempotent | src/main/java/org/Terasology/Archipelago/ArchipelagoRasterizer.java:61-81 | Generating an already generated chunk again from the same facets leaves it unchanged. |
| Rasterizer.SolidIsStone | src/main/java/org/Terasology/Archipelago/ArchipelagoRasterizer.java:69-70 | In a generated chunk, a region voxel with density of at least 32 is stone, whatever its biome, height or sea level. |
| Rasterizer.NearSurfaceFollowsTable | src/main/java/org/Terasology/Archipelago/ArchipelagoRasterizer.java:71-74 | In a generated chunk, a region voxel with density in [0, 32) holds the table's block for depth floor(surface height) minus world height, at its world height, in its column's biome. |
| Rasterizer.EmptyIsWaterBelowSea | src/main/java/org/Terasology/Archipelago/ArchipelagoRasterizer.java:75-79 | A region voxel with negative density is water with a full-depth water liquid at or below sea level. Above sea level it keeps its previous block and liquid. |
| Rasterizer.WaterOnlyWhereEmpty | src/main/java/org/Terasology/Archipelago/ArchipelagoRasterizer.java:69-79 | A region voxel that holds water after generation has negative density, because the table never yields water. |
| Rasterizer.LiquidOnlyOnWater | src/main/java/org/Terasology/Archipelago/ArchipelagoRasterizer.java:75-79 | A liquid changes only on a region voxel that is then water carrying full-depth water. |
| Rasterizer.EveryVoxelTagged | src/main/java/org/Terasology/Archipelago/ArchipelagoRasterizer.java:61-64 | Every region voxel carries its column's biome, whatever branch its density takes. |

## Left out

- `initialize` (ArchipelagoRasterizer.java:42-49) looks blocks up in the host's global block registry. The five blocks are datatype constructors instead, and a missing registry entry is not modelled.
- Facet retrieval, `Region` plumbing and host chunk storage (ArchipelagoRasterizer.java:54-58) are abstracted. The facets become total functions in `Rasterizer.Facets`. The chunk becomes three maps in `Rasterizer.Chunk`.
- The chunk size (`ChunkConstants.CHUNK_REGION`) is a parameter `Dims`: the host's constants are not part of this model.
- The value of `LiquidData.MAX_LIQUID_DEPTH` belongs to the host and is not part of this model. The liquid written is the single constructor `FullWater`.
- The host's region iterator order is not visible. `WriteRegion` visits positions in an arbitrary order, and `RasterizationUnique` shows the result does not depend on it.
- `SurfaceProvider.java` is left out entirely. It composes an external noise library (simplex, brownian, sub-sampled noise) with single-precision `Math.exp` and clamps, and the rest is host configuration and facet wiring.
- Concurrency across chunks is the host's concern; the rasterizer itself is single-threaded.
- Rasterizer.Decide: density and surface height are exact reals. Single-precision rounding, NaN and infinities are not modelled. Neither is the saturation of `floorToInt` outside the 32-bit range.
- Surface.SurfaceBlock: depth, world height and sea level are unbounded integers. The Java computes `seaLevel + 96`, `pos.y + worldOffsetY` and `floorToInt(h) - posY` in 32-bit arithmetic, which can wrap near the `int` limits. Realistic sea levels and chunk heights never get there.
