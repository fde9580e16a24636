/**
 * The flat terrain generator (src/world/terrain.ts): every column is three
 * layers of stone, two of dirt and one of grass, with air above.
 */
module Terrain {
  import opened Geometry
  import opened VoxelGrid

  const GroundHeight := 6

  /** The block id the generator writes at height `y`. */
  function FlatLayer(y: int): int
  {
    if y < GroundHeight - 3 then 3
    else if y < GroundHeight - 1 then 2
    else if y == GroundHeight - 1 then 1
    else 0
  }

  /** Every in-bounds cell holds the layer of its height. */
  ghost predicate IsFlat(world: VoxelWorld)
    requires world.Valid()
    reads world, world.data
  {
    forall x, y, z :: world.InBounds(x, y, z) ==> world.Get(x, y, z) == FlatLayer(y)
  }

  /**
   * `generateFlatWorld(world)`: overwrites every in-bounds cell, so the result
   * does not depend on what the grid held before.
   */
  method GenerateFlatWorld(world: VoxelWorld)
    requires world.Valid()
    modifies world.data
    ensures world.Valid() && IsFlat(world)
  {
    var x := 0;
    while x < world.width
      invariant 0 <= x <= world.width
      invariant forall a, b, c :: world.InBounds(a, b, c) && a < x ==> world.Get(a, b, c) == FlatLayer(b)
    {
      var z := 0;
      while z < world.depth
        invariant 0 <= z <= world.depth
        invariant forall a, b, c :: world.InBounds(a, b, c) && (a < x || (a == x && c < z)) ==>
          world.Get(a, b, c) == FlatLayer(b)
      {
        var y := 0;
        while y < world.height
          invariant 0 <= y <= world.height
          invariant forall a, b, c :: world.InBounds(a, b, c) && (a < x || (a == x && c < z) || (a == x && c == z && b < y)) ==>
            world.Get(a, b, c) == FlatLayer(b)
        {
          world.Set(x, y, z, FlatLayer(y));
          y := y + 1;
        }
        z := z + 1;
      }
      x := x + 1;
    }
  }

  /** The downward scan of a flat column from row y stops at grass (row 5) or at the row itself when lower. */
  lemma {:induction false} FlatSurfaceFrom(world: VoxelWorld, x: int, z: int, y: int)
    requires world.Valid() && IsFlat(world)
    requires 0 <= x < world.width && 0 <= z < world.depth && 0 <= y < world.height
    decreases y
    ensures world.SurfaceFrom(x, z, y) == MinInt(y + 1, GroundHeight)
  {
    assert world.Get(x, y, z) == FlatLayer(y);
    if y >= GroundHeight {
      FlatSurfaceFrom(world, x, z, y - 1);
    }
  }

  /**
   * After generation every column's surface is 6 once the grid is at least six
   * cells high (the grid's height when lower, and 1 outside the grid).
   */
  lemma FlatSurface(world: VoxelWorld, x: int, z: int)
    requires world.Valid() && IsFlat(world)
    ensures world.SurfaceOf(x, z) ==
      if 0 <= x < world.width && 0 <= z < world.depth && world.height > 0
      then MinInt(world.height, GroundHeight)
      else 1
  {
    if 0 <= x < world.width && 0 <= z < world.depth && world.height > 0 {
      FlatSurfaceFrom(world, x, z, world.height - 1);
    } else {
      FlatSurfaceOutside(world, x, z, world.height - 1);
    }
  }

  /** A column outside the grid reads all air. */
  lemma {:induction false} FlatSurfaceOutside(world: VoxelWorld, x: int, z: int, y: int)
    requires world.Valid()
    requires !(0 <= x < world.width && 0 <= z < world.depth) || y < 0
    decreases y + 1
    ensures world.SurfaceFrom(x, z, y) == 1
  {
    if y >= 0 {
      FlatSurfaceOutside(world, x, z, y - 1);
    }
  }
}
