/**
 * The block catalog (src/world/blocks.ts): block ids, their solidity, per-face
 * tile keys and particle tints, the ids the hotbar offers and the image file
 * of each tile. The canvas painters are not part of this model.
 */
module Blocks {
  import opened Wrappers
  import opened FaceDirections

  datatype TileKey = GrassTop | GrassSide | Dirt | Stone | Sand | WoodSide | WoodTop | Leaves | Plank

  /** A tile key for each of the six face names. */
  datatype FaceTiles = FaceTiles(px: TileKey, nx: TileKey, py: TileKey, ny: TileKey, pz: TileKey, nz: TileKey)

  datatype BlockDef = BlockDef(name: string, solid: bool, faces: Option<FaceTiles>, tint: Option<string>)

  const AirId := 0
  const GrassId := 1

  /** `faces[name]` */
  function TileFor(tiles: FaceTiles, name: FaceName): TileKey
  {
    match name
    case PX => tiles.px
    case NX => tiles.nx
    case PY => tiles.py
    case NY => tiles.ny
    case PZ => tiles.pz
    case NZ => tiles.nz
  }

  function Uniform(t: TileKey): FaceTiles
  {
    FaceTiles(t, t, t, t, t, t)
  }

  /** The `faces` entry of `BLOCK_TYPES[id]`: the six tile keys of blocks 1..7, none otherwise. */
  function BlockFaces(id: int): Option<FaceTiles>
  {
    if id == 1 then Some(FaceTiles(GrassSide, GrassSide, GrassTop, Dirt, GrassSide, GrassSide))
    else if id == 2 then Some(Uniform(Dirt))
    else if id == 3 then Some(Uniform(Stone))
    else if id == 4 then Some(Uniform(Sand))
    else if id == 5 then Some(FaceTiles(WoodSide, WoodSide, WoodTop, WoodTop, WoodSide, WoodSide))
    else if id == 6 then Some(Uniform(Leaves))
    else if id == 7 then Some(Uniform(Plank))
    else None
  }

  /**
   * `BLOCK_TYPES[id]`: defined for the ids 0..7 of `BlockId`; any other byte
   * value read from the grid finds no entry (`undefined`).
   */
  function BlockType(id: int): Option<BlockDef>
  {
    if id == 0 then Some(BlockDef("Air", false, None, None))
    else if id == 1 then Some(BlockDef("Grass", true, BlockFaces(1), Some("#6cb340")))
    else if id == 2 then Some(BlockDef("Dirt", true, BlockFaces(2), Some("#7a5736")))
    else if id == 3 then Some(BlockDef("Stone", true, BlockFaces(3), Some("#8d9196")))
    else if id == 4 then Some(BlockDef("Sand", true, BlockFaces(4), Some("#e8d7a6")))
    else if id == 5 then Some(BlockDef("Wood", true, BlockFaces(5), Some("#a17444")))
    else if id == 6 then Some(BlockDef("Leaves", true, BlockFaces(6), Some("#4e9a44")))
    else if id == 7 then Some(BlockDef("Planks", true, BlockFaces(7), Some("#d6b07d")))
    else None
  }

  /**
   * `BLOCK_TYPES[id]?.solid`: the ids 1..7 of the catalog. `IsSolidAgreesWithCatalog`
   * shows that this is the catalog's `solid` flag, a missing entry counting as not solid.
   */
  predicate IsSolid(id: int)
  {
    1 <= id <= 7
  }

  lemma IsSolidAgreesWithCatalog(id: int)
    ensures IsSolid(id) <==> BlockType(id).Some? && BlockType(id).value.solid
  {
  }

  /** `SELECTABLE_BLOCK_IDS` */
  const SelectableBlockIds: seq<int> := [1, 2, 3, 4, 5, 6, 7]

  /** `TILE_IMAGE_PATHS[tile]` */
  function TileImagePath(t: TileKey): (path: string)
    ensures |path| > 4 && path[|path| - 4..] == ".png"
  {
    match t
    case GrassTop => "grass_block_top.png"
    case GrassSide => "grass_block_side.png"
    case Dirt => "dirt.png"
    case Stone => "stone.png"
    case Sand => "sand.png"
    case WoodSide => "oak_log.png"
    case WoodTop => "oak_log_top.png"
    case Leaves => "oak_leaves.png"
    case Plank => "oak_planks.png"
  }

  /** Air is not solid and has neither faces nor a tint. */
  lemma AirIsEmpty()
    ensures BlockType(AirId).Some? && !BlockType(AirId).value.solid
    ensures BlockType(AirId).value.faces.None? && BlockType(AirId).value.tint.None?
  {
  }

  /** Exactly the ids 1..7 are solid; each has faces and a tint; every other id has no entry. */
  lemma SolidIdsHaveFacesAndTint(id: int)
    ensures BlockType(id).Some? && BlockType(id).value.solid <==> 1 <= id <= 7
    ensures 1 <= id <= 7 ==> BlockType(id).value.faces.Some? && BlockType(id).value.tint.Some?
    ensures BlockType(id).Some? <==> 0 <= id <= 7
  {
  }

  /** Grass shows grass_top above, dirt below, grass_side around; wood shows wood_top on both ends. */
  lemma GrassAndWoodFaces()
    ensures var g := BlockType(1).value.faces.value;
      TileFor(g, PY) == GrassTop && TileFor(g, NY) == Dirt &&
      TileFor(g, PX) == TileFor(g, NX) == TileFor(g, PZ) == TileFor(g, NZ) == GrassSide
    ensures var w := BlockType(5).value.faces.value;
      TileFor(w, PY) == TileFor(w, NY) == WoodTop &&
      TileFor(w, PX) == TileFor(w, NX) == TileFor(w, PZ) == TileFor(w, NZ) == WoodSide
  {
  }

  /** The hotbar lists 1..7 in order, so air is never selectable and every entry is solid. */
  lemma SelectableIdsAreSolidBlocks()
    ensures |SelectableBlockIds| == 7
    ensures forall i :: 0 <= i < 7 ==> SelectableBlockIds[i] == i + 1
    ensures AirId !in SelectableBlockIds
    ensures forall id :: id in SelectableBlockIds ==> BlockType(id).Some? && BlockType(id).value.solid
  {
  }
}
