/**
 Chunk generation: every voxel of a chunk's local cuboid is tagged with its
 column's biome and, depending on its density, becomes stone, a surface block
 from the classification table, submerged water, or is left alone.
 */
module Rasterizer {
  import opened Blocks
  import opened Surface

  /** A voxel position in chunk-local coordinates; `y` is vertical. */
  datatype Pos = Pos(x: int, y: int, z: int)

  /** A horizontal column position in chunk-local coordinates. */
  datatype Column = Column(x: int, z: int)

  function ColumnOf(p: Pos): Column {
    Column(p.x, p.z)
  }

  /** The extent of the chunk-local cuboid that generation walks over. */
  datatype Dims = Dims(sizeX: nat, sizeY: nat, sizeZ: nat)

  /** The facets generation reads: per-voxel density, per-column surface
      height and biome, and one sea level for the whole chunk. */
  datatype Facets = Facets(
    density: Pos -> real,
    surfaceHeight: Column -> real,
    biome: Column -> Biome,
    seaLevel: int)

  /** The host chunk: its vertical world offset and what has been written
      into it so far. A position absent from a map keeps the host's value. */
  datatype Chunk = Chunk(
    worldOffsetY: int,
    blocks: map<Pos, Block>,
    liquids: map<Pos, Liquid>,
    biomes: map<Pos, Biome>)

  /** The chunk-local cuboid of positions generation visits: exactly the
      positions inside the chunk's extent, one per voxel, so generation writes
      exactly that many voxels. */
  function ChunkRegion(dims: Dims): (region: set<Pos>)
    ensures forall p :: p in region <==>
      0 <= p.x < dims.sizeX && 0 <= p.y < dims.sizeY && 0 <= p.z < dims.sizeZ
    ensures |region| == dims.sizeX * (dims.sizeY * dims.sizeZ)
  {
    Cuboid(dims.sizeX, dims.sizeY, dims.sizeZ)
  }

  /** The positions with `0 <= x < sx`, `0 <= y < sy` and `0 <= z < sz`,
      built one slab of constant `x` at a time. */
  function Cuboid(sx: nat, sy: nat, sz: nat): (r: set<Pos>)
    ensures forall p :: p in r <==> 0 <= p.x < sx && 0 <= p.y < sy && 0 <= p.z < sz
    ensures |r| == sx * (sy * sz)
  {
    if sx == 0 then {}
    else
      var prev := Cuboid(sx - 1, sy, sz);
      var slab := Slab(sx - 1, sy, sz);
      assert prev !! slab;
      prev + slab
  }

  /** The positions at horizontal coordinate `x` with `0 <= y < sy` and
      `0 <= z < sz`, built one row of constant `y` at a time. */
  function Slab(x: int, sy: nat, sz: nat): (r: set<Pos>)
    ensures forall p :: p in r <==> p.x == x && 0 <= p.y < sy && 0 <= p.z < sz
    ensures |r| == sy * sz
  {
    if sy == 0 then {}
    else
      var prev := Slab(x, sy - 1, sz);
      var row := Row(x, sy - 1, sz);
      assert prev !! row;
      prev + row
  }

  /** The positions at `x` and vertical coordinate `y` with `0 <= z < sz`. */
  function Row(x: int, y: int, sz: nat): (r: set<Pos>)
    ensures forall p :: p in r <==> p.x == x && p.y == y && 0 <= p.z < sz
    ensures |r| == sz
  {
    if sz == 0 then {}
    else Row(x, y, sz - 1) + {Pos(x, y, sz - 1)}
  }

  /** What one voxel receives: possibly a block, possibly a liquid. */
  datatype Outcome = Outcome(block: Option<Block>, liquid: Option<Liquid>)

  /** The per-voxel decision, from the voxel's density, its column's surface
      height and biome, its world height and the sea level. */
  function Decide(density: real, surfaceHeight: real, worldY: int, biome: Biome, seaLevel: int): (o: Outcome)
    // Solid interior is stone whatever the biome, height or sea level.
    ensures density >= 32.0 ==> o.block == Some(Stone)
    // Near-surface voxels follow the table at their depth below the floored surface.
    ensures 0.0 <= density < 32.0 ==>
              o.block == Some(SurfaceBlock(surfaceHeight.Floor - worldY, worldY, biome, seaLevel))
    // Water is placed exactly on empty voxels at or below sea level.
    ensures o.block == Some(Water) <==> density < 0.0 && worldY <= seaLevel
    ensures o.block == None <==> density < 0.0 && worldY > seaLevel
    // A liquid goes only with water, and then it is full-depth water.
    ensures o.liquid != None <==> o.block == Some(Water)
    ensures o.liquid == None || o.liquid == Some(FullWater)
  {
    if density >= 32.0 then
      Outcome(Some(Stone), None)
    else if density >= 0.0 then
      var depth := surfaceHeight.Floor - worldY;
      Outcome(Some(SurfaceBlock(depth, worldY, biome, seaLevel)), None)
    else if worldY <= seaLevel then
      Outcome(Some(Water), Some(FullWater))
    else
      Outcome(None, None)
  }

  /** The world height of a chunk-local position. */
  function WorldY(c: Chunk, p: Pos): int {
    p.y + c.worldOffsetY
  }

  /** The decision for position `p` of chunk `c`. */
  function DecideAt(c: Chunk, f: Facets, p: Pos): Outcome {
    Decide(f.density(p), f.surfaceHeight(ColumnOf(p)), WorldY(c, p), f.biome(ColumnOf(p)), f.seaLevel)
  }

  /** Writes `v` at `k` when present; otherwise leaves `m` alone. */
  function WriteOpt<K, V>(m: map<K, V>, k: K, v: Option<V>): map<K, V> {
    match v
    case Some(x) => m[k := x]
    case None => m
  }

  /** Position `k` reads the same in `m1` and `m2`: absent from both, or
      present in both with one value. */
  predicate SameAt<K, V(==)>(m1: map<K, V>, m2: map<K, V>, k: K) {
    (k !in m1 && k !in m2) || (k in m1 && k in m2 && m1[k] == m2[k])
  }

  /** After `v` is applied at `k`, `m2` holds `v` there, or agrees with `m1`
      when nothing was to be written. */
  predicate AppliedAt<K, V(==)>(m1: map<K, V>, m2: map<K, V>, k: K, v: Option<V>) {
    match v
    case Some(x) => k in m2 && m2[k] == x
    case None => SameAt(m1, m2, k)
  }

  /** Voxel `p` of `after` is what generation makes of voxel `p` of `before`. */
  predicate VoxelRasterized(before: Chunk, after: Chunk, f: Facets, p: Pos) {
    var o := DecideAt(before, f, p);
    && p in after.biomes && after.biomes[p] == f.biome(ColumnOf(p))
    && AppliedAt(before.blocks, after.blocks, p, o.block)
    && AppliedAt(before.liquids, after.liquids, p, o.liquid)
  }

  /** Voxel `p` is the same in both chunks. */
  predicate Untouched(before: Chunk, after: Chunk, p: Pos) {
    && SameAt(before.blocks, after.blocks, p)
    && SameAt(before.liquids, after.liquids, p)
    && SameAt(before.biomes, after.biomes, p)
  }

  /** `after` is `before` with every voxel of `region` generated and every
      other position left as it was. */
  ghost predicate IsRasterization(before: Chunk, after: Chunk, f: Facets, region: set<Pos>) {
    && after.worldOffsetY == before.worldOffsetY
    && (forall p :: p in region ==> VoxelRasterized(before, after, f, p))
    && (forall p :: p !in region ==> Untouched(before, after, p))
  }

  /** One iteration of the generation loop: tag the biome, then write the
      decided block and liquid, if any. */
  function WriteVoxel(c: Chunk, f: Facets, p: Pos): (c': Chunk)
    ensures c'.worldOffsetY == c.worldOffsetY
    ensures VoxelRasterized(c, c', f, p)
    ensures forall q :: q != p ==> Untouched(c, c', q)
  {
    var o := DecideAt(c, f, p);
    Chunk(c.worldOffsetY,
          WriteOpt(c.blocks, p, o.block),
          WriteOpt(c.liquids, p, o.liquid),
          c.biomes[p := f.biome(ColumnOf(p))])
  }

  /** Writes every voxel of `region`, visiting each position once in an order
      the host's region iterator chooses; no other position changes. */
  method WriteRegion(chunk: Chunk, f: Facets, region: set<Pos>) returns (out: Chunk)
    ensures out.worldOffsetY == chunk.worldOffsetY
    ensures forall p :: p in region ==> VoxelRasterized(chunk, out, f, p)
    ensures forall p :: p !in region ==> Untouched(chunk, out, p)
  {
    var todo := region;
    out := chunk;
    while todo != {}
      invariant todo <= region
      invariant out.worldOffsetY == chunk.worldOffsetY
      invariant forall p :: p in region && p !in todo ==> VoxelRasterized(chunk, out, f, p)
      invariant forall p :: p !in region || p in todo ==> Untouched(chunk, out, p)
      decreases todo
    {
      var p :| p in todo;
      out := WriteVoxel(out, f, p);
      todo := todo - {p};
    }
  }

  /** Generates a chunk: every voxel of the chunk region is written. */
  method GenerateChunk(chunk: Chunk, f: Facets, dims: Dims) returns (out: Chunk)
    ensures out.worldOffsetY == chunk.worldOffsetY
    ensures forall p :: p in ChunkRegion(dims) ==> VoxelRasterized(chunk, out, f, p)
    ensures forall p :: p !in ChunkRegion(dims) ==> Untouched(chunk, out, p)
  {
    out := WriteRegion(chunk, f, ChunkRegion(dims));
  }

  /** Maps that agree at every key are equal. */
  lemma SameEverywhere<K, V>(m1: map<K, V>, m2: map<K, V>)
    requires forall k :: SameAt(m1, m2, k)
    ensures m1 == m2
  {
    forall k ensures k in m1 <==> k in m2 {
      assert SameAt(m1, m2, k);
    }
    assert m1.Keys == m2.Keys;
    forall k | k in m1 ensures m1[k] == m2[k] {
      assert SameAt(m1, m2, k);
    }
  }

  /** Two rasterizations of the same chunk from the same facets are the same
      chunk: the order in which the region is visited does not matter. */
  lemma RasterizationUnique(c: Chunk, a: Chunk, b: Chunk, f: Facets, region: set<Pos>)
    requires IsRasterization(c, a, f, region)
    requires IsRasterization(c, b, f, region)
    ensures a == b
  {
    forall p ensures SameAt(a.blocks, b.blocks, p) && SameAt(a.liquids, b.liquids, p) && SameAt(a.biomes, b.biomes, p) {
      if p in region {
        assert VoxelRasterized(c, a, f, p) && VoxelRasterized(c, b, f, p);
      } else {
        assert Untouched(c, a, p) && Untouched(c, b, p);
      }
    }
    SameEverywhere(a.blocks, b.blocks);
    SameEverywhere(a.liquids, b.liquids);
    SameEverywhere(a.biomes, b.biomes);
  }

  /** Generating a chunk a second time from the same facets changes nothing. */
  lemma RasterizationIdempotent(c: Chunk, a: Chunk, b: Chunk, f: Facets, region: set<Pos>)
    requires IsRasterization(c, a, f, region)
    requires IsRasterization(a, b, f, region)
    ensures b == a
  {
    forall p ensures SameAt(a.blocks, b.blocks, p) && SameAt(a.liquids, b.liquids, p) && SameAt(a.biomes, b.biomes, p) {
      if p in region {
        assert DecideAt(a, f, p) == DecideAt(c, f, p);
        assert VoxelRasterized(c, a, f, p) && VoxelRasterized(a, b, f, p);
      } else {
        assert Untouched(a, b, p);
      }
    }
    SameEverywhere(a.blocks, b.blocks);
    SameEverywhere(a.liquids, b.liquids);
    SameEverywhere(a.biomes, b.biomes);
  }

  /** A voxel of the region with density at least 32 is stone. */
  lemma SolidIsStone(c: Chunk, a: Chunk, f: Facets, region: set<Pos>, p: Pos)
    requires IsRasterization(c, a, f, region)
    requires p in region && f.density(p) >= 32.0
    ensures p in a.blocks && a.blocks[p] == Stone
  {
  }

  /** A voxel of the region with density in [0, 32) holds the table's block
      for its depth below the floored surface of its column. */
  lemma NearSurfaceFollowsTable(c: Chunk, a: Chunk, f: Facets, region: set<Pos>, p: Pos)
    requires IsRasterization(c, a, f, region)
    requires p in region && 0.0 <= f.density(p) < 32.0
    ensures var worldY := p.y + c.worldOffsetY;
            var col := ColumnOf(p);
            && p in a.blocks
            && a.blocks[p] == SurfaceBlock(f.surfaceHeight(col).Floor - worldY, worldY, f.biome(col), f.seaLevel)
  {
  }

  /** A voxel of the region with negative density becomes water with a
      full-depth water liquid when it is at or below sea level, and keeps
      whatever block and liquid it had otherwise. */
  lemma EmptyIsWaterBelowSea(c: Chunk, a: Chunk, f: Facets, region: set<Pos>, p: Pos)
    requires IsRasterization(c, a, f, region)
    requires p in region && f.density(p) < 0.0
    ensures p.y + c.worldOffsetY <= f.seaLevel ==>
              && p in a.blocks && a.blocks[p] == Water
              && p in a.liquids && a.liquids[p] == FullWater
    ensures p.y + c.worldOffsetY > f.seaLevel ==>
              SameAt(c.blocks, a.blocks, p) && SameAt(c.liquids, a.liquids, p)
  {
  }

  /** Water in a generated voxel comes only from the negative-density branch:
      the classification table never yields it. */
  lemma WaterOnlyWhereEmpty(c: Chunk, a: Chunk, f: Facets, region: set<Pos>, p: Pos)
    requires IsRasterization(c, a, f, region)
    requires p in region && p in a.blocks && a.blocks[p] == Water
    ensures f.density(p) < 0.0
  {
  }

  /** A liquid is changed only on a voxel that is water afterwards. */
  lemma LiquidOnlyOnWater(c: Chunk, a: Chunk, f: Facets, region: set<Pos>, p: Pos)
    requires IsRasterization(c, a, f, region)
    requires !SameAt(c.liquids, a.liquids, p)
    ensures p in region
    ensures p in a.blocks && a.blocks[p] == Water && a.liquids[p] == FullWater
  {
  }

  /** Every voxel of the region carries its column's biome, whatever its
      density. */
  lemma EveryVoxelTagged(c: Chunk, a: Chunk, f: Facets, region: set<Pos>, p: Pos)
    requires IsRasterization(c, a, f, region)
    requires p in region
    ensures p in a.biomes && a.biomes[p] == f.biome(ColumnOf(p))
  {
  }
}
