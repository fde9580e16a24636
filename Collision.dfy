/**
 * Collision of the player's box with the grid (src/physics/collision.ts): the
 * player's box, the clamped range of cells under a box, the overlap query
 * `collidesAt` and the single-axis swept resolver `collideAxis`.
 */
module Collision {
  import opened Geometry
  import opened VoxelGrid
  import opened Blocks
  import opened Aabb

  /** The tolerance both scans use, `1e-4`. */
  const Eps: real := 0.0001

  /** `playerAABB(pos, radius, height)`: feet at `pos.y`, centred on `pos` horizontally. */
  function PlayerAABB(pos: Vec3, radius: real, height: real): (b: AABB)
    ensures b.min.y == pos.y && b.max.y - b.min.y == height
    ensures (b.min.x + b.max.x) / 2.0 == pos.x && b.max.x - b.min.x == 2.0 * radius
    ensures (b.min.z + b.max.z) / 2.0 == pos.z && b.max.z - b.min.z == 2.0 * radius
  {
    AABB(Vec3(pos.x - radius, pos.y, pos.z - radius), Vec3(pos.x + radius, pos.y + height, pos.z + radius))
  }

  /** The first cell scanned along an axis: `max(0, floor(min + EPS))`. */
  function ScanLo(min: real): int
  {
    MaxInt(0, (min + Eps).Floor)
  }

  /** The last cell scanned along an axis: `min(size - 1, floor(max - EPS))`. */
  function ScanHi(max: real, size: nat): int
  {
    MinInt(size - 1, (max - Eps).Floor)
  }

  /** The cell lies in the clamped range both scans visit for `box`. */
  predicate InScan(world: VoxelWorld, box: AABB, c: Cell)
    reads world
  {
    && ScanLo(box.min.x) <= c.x <= ScanHi(box.max.x, world.width)
    && ScanLo(box.min.y) <= c.y <= ScanHi(box.max.y, world.height)
    && ScanLo(box.min.z) <= c.z <= ScanHi(box.max.z, world.depth)
  }

  /** A scanned cell whose block is solid and whose cube intersects the box. */
  predicate SolidHit(world: VoxelWorld, box: AABB, c: Cell)
    requires world.Valid()
    reads world, world.data
  {
    InScan(world, box, c) && IsSolid(world.Get(c.x, c.y, c.z)) && Intersects(box, BlockAABB(c))
  }

  /** Along one axis the box overlaps the cell by more than EPS below and at least EPS above. */
  predicate DeepOverlap(lo: real, hi: real, c: int)
  {
    lo + Eps < c as real + 1.0 && c as real <= hi - Eps
  }

  lemma FloorBounds(r: real, c: int)
    ensures r.Floor <= c <==> r < c as real + 1.0
    ensures c <= r.Floor <==> c as real <= r
  {
  }

  /**
   * The scanned cells are exactly the in-bounds cells the box overlaps by EPS
   * on every axis.
   */
  lemma InScanIff(world: VoxelWorld, box: AABB, c: Cell)
    ensures InScan(world, box, c) <==>
      && world.InBounds(c.x, c.y, c.z)
      && DeepOverlap(box.min.x, box.max.x, c.x)
      && DeepOverlap(box.min.y, box.max.y, c.y)
      && DeepOverlap(box.min.z, box.max.z, c.z)
  {
    FloorBounds(box.min.x + Eps, c.x);
    FloorBounds(box.min.y + Eps, c.y);
    FloorBounds(box.min.z + Eps, c.z);
    FloorBounds(box.max.x - Eps, c.x);
    FloorBounds(box.max.y - Eps, c.y);
    FloorBounds(box.max.z - Eps, c.z);
  }

  /** Every scanned cell's cube intersects the box, so the scan's `intersects` test never rejects. */
  lemma ScannedCellsIntersect(world: VoxelWorld, box: AABB, c: Cell)
    requires InScan(world, box, c)
    ensures Intersects(box, BlockAABB(c))
  {
    InScanIff(world, box, c);
  }

  /** A hit is an in-bounds solid cell that the box overlaps by EPS on every axis. */
  lemma SolidHitIff(world: VoxelWorld, box: AABB, c: Cell)
    requires world.Valid()
    ensures SolidHit(world, box, c) <==>
      && world.InBounds(c.x, c.y, c.z)
      && IsSolid(world.Get(c.x, c.y, c.z))
      && DeepOverlap(box.min.x, box.max.x, c.x)
      && DeepOverlap(box.min.y, box.max.y, c.y)
      && DeepOverlap(box.min.z, box.max.z, c.z)
  {
    InScanIff(world, box, c);
    if InScan(world, box, c) {
      ScannedCellsIntersect(world, box, c);
    }
  }

  /** Cells are visited x-major, then y, then z; `Visited` holds for cells before (x, y, z). */
  predicate Visited(c: Cell, x: int, y: int, z: int)
  {
    c.x < x || (c.x == x && c.y < y) || (c.x == x && c.y == y && c.z < z)
  }

  /** `collidesAt(world, box)`: some scanned solid cell intersects the box. */
  method CollidesAt(world: VoxelWorld, box: AABB) returns (r: bool)
    requires world.Valid()
    ensures r <==> exists c :: SolidHit(world, box, c)
  {
    var maxX, maxY, maxZ := ScanHi(box.max.x, world.width), ScanHi(box.max.y, world.height), ScanHi(box.max.z, world.depth);
    var minX, minY, minZ := ScanLo(box.min.x), ScanLo(box.min.y), ScanLo(box.min.z);
    var x := minX;
    while x <= maxX
      invariant minX <= x && (x <= maxX + 1 || x == minX)
      invariant forall c :: SolidHit(world, box, c) ==> !Visited(c, x, minY, minZ)
    {
      var y := minY;
      while y <= maxY
        invariant minY <= y && (y <= maxY + 1 || y == minY)
        invariant forall c :: SolidHit(world, box, c) ==> !Visited(c, x, y, minZ)
      {
        var z := minZ;
        while z <= maxZ
          invariant minZ <= z && (z <= maxZ + 1 || z == minZ)
          invariant forall c :: SolidHit(world, box, c) ==> !Visited(c, x, y, z)
        {
          var blockId := world.Get(x, y, z);
          if IsSolid(blockId) && Intersects(box, BlockAABB(Cell(x, y, z))) {
            assert SolidHit(world, box, Cell(x, y, z));
            return true;
          }
          z := z + 1;
        }
        y := y + 1;
      }
      x := x + 1;
    }
    return false;
  }

  /** In a grid without solid cells no box collides. */
  lemma NoSolidCellNoHit(world: VoxelWorld, box: AABB)
    requires world.Valid()
    requires forall x, y, z :: !IsSolid(world.Get(x, y, z))
    ensures !exists c :: SolidHit(world, box, c)
  {
  }

  /** What `collideAxis` hands back: the new position, the caller's velocity after the call, and whether `onGroundHit` fired. */
  datatype AxisResult = AxisResult(pos: Vec3, vel: Vec3, groundHit: bool)

  /** `pos` moved by `amount` along `axis`: `nextPos`. */
  function Shifted(pos: Vec3, axis: Axis, amount: real): Vec3
  {
    WithComponent(pos, axis, Component(pos, axis) + amount)
  }

  /** How far the box reaches from `pos` along the axis: the height on Y, the radius on X and Z. */
  function Extent(axis: Axis, radius: real, height: real): real
  {
    if axis == Y then height else radius
  }

  /**
   * The coordinate at which a hit cell stops the move: below the cell's lower
   * face (less the extent) going up, above its upper face going down (plus the
   * extent except on Y, where `pos` is the feet).
   */
  function Candidate(c: Cell, axis: Axis, amount: real, radius: real, height: real): real
  {
    var block := BlockAABB(c);
    if amount > 0.0 then Component(block.min, axis) - Extent(axis, radius, height) - Eps
    else Component(block.max, axis) + (if axis == Y then 0.0 else Extent(axis, radius, height)) + Eps
  }

  /** `limit` is no further along the direction of motion than `candidate`. */
  predicate NotBeyond(amount: real, limit: real, candidate: real)
  {
    if amount > 0.0 then limit <= candidate else limit >= candidate
  }

  /**
   * The outcome `collideAxis` produces: a zero move changes nothing; a move
   * with no hit lands on `nextPos`; otherwise the moved coordinate is the
   * tightest stop over all hit cells (the least candidate going up, the
   * greatest going down), the velocity on that axis is zeroed, and the ground
   * callback fires exactly for a downward move on Y.
   */
  ghost predicate AxisResolved(world: VoxelWorld, pos: Vec3, vel: Vec3, axis: Axis, amount: real,
                               radius: real, height: real, res: AxisResult)
    requires world.Valid()
    reads world, world.data
  {
    if amount == 0.0 then res == AxisResult(pos, vel, false)
    else
      var next := Shifted(pos, axis, amount);
      var box := PlayerAABB(next, radius, height);
      if !exists c :: SolidHit(world, box, c) then res == AxisResult(next, vel, false)
      else
        && (exists w :: SolidHit(world, box, w) && res.pos == WithComponent(next, axis, Candidate(w, axis, amount, radius, height)))
        && (forall c :: SolidHit(world, box, c) ==>
              NotBeyond(amount, Component(res.pos, axis), Candidate(c, axis, amount, radius, height)))
        && res.vel == WithComponent(vel, axis, 0.0)
        && res.groundHit == (axis == Y && amount < 0.0)
  }

  /** Every hit cell's stop lies strictly behind `nextPos` on the moved axis (by at least 2 EPS). */
  lemma CandidateBehindNext(world: VoxelWorld, pos: Vec3, axis: Axis, amount: real, radius: real, height: real, c: Cell)
    requires world.Valid() && amount != 0.0
    requires SolidHit(world, PlayerAABB(Shifted(pos, axis, amount), radius, height), c)
    ensures var goal := Component(pos, axis) + amount;
      var cand := Candidate(c, axis, amount, radius, height);
      if amount > 0.0 then cand <= goal - 2.0 * Eps else cand >= goal + 2.0 * Eps
  {
    InScanIff(world, PlayerAABB(Shifted(pos, axis, amount), radius, height), c);
  }

  /**
   * The sweep's loop state once every cell before (x, y, z) has been visited:
   * `hit` says whether a visited cell was a hit, `limit` is the tightest stop
   * among them (the hit cell `best` gives it), or `start` when none hit.
   */
  ghost predicate Swept(world: VoxelWorld, box: AABB, start: real, axis: Axis, amount: real, radius: real, height: real,
                        x: int, y: int, z: int, hit: bool, limit: real, best: Cell)
    requires world.Valid()
    reads world, world.data
  {
    && (hit <==> exists c :: SolidHit(world, box, c) && Visited(c, x, y, z))
    && (hit ==> SolidHit(world, box, best) && limit == Candidate(best, axis, amount, radius, height))
    && (!hit ==> limit == start)
    && (forall c :: SolidHit(world, box, c) && Visited(c, x, y, z) ==>
          NotBeyond(amount, limit, Candidate(c, axis, amount, radius, height)))
  }

  /** Moving the cursor past cells that cannot be hits keeps the sweep's state valid. */
  lemma SweptMove(world: VoxelWorld, box: AABB, start: real, axis: Axis, amount: real, radius: real, height: real,
                  x1: int, y1: int, z1: int, x2: int, y2: int, z2: int, hit: bool, limit: real, best: Cell)
    requires world.Valid()
    requires forall c :: SolidHit(world, box, c) ==> (Visited(c, x1, y1, z1) <==> Visited(c, x2, y2, z2))
    requires Swept(world, box, start, axis, amount, radius, height, x1, y1, z1, hit, limit, best)
    ensures Swept(world, box, start, axis, amount, radius, height, x2, y2, z2, hit, limit, best)
  {
  }

  /** Visiting a cell that is not a hit changes nothing. */
  lemma SweptMiss(world: VoxelWorld, box: AABB, start: real, axis: Axis, amount: real, radius: real, height: real,
                  cell: Cell, hit: bool, limit: real, best: Cell)
    requires world.Valid() && !SolidHit(world, box, cell)
    requires Swept(world, box, start, axis, amount, radius, height, cell.x, cell.y, cell.z, hit, limit, best)
    ensures Swept(world, box, start, axis, amount, radius, height, cell.x, cell.y, cell.z + 1, hit, limit, best)
  {
    SweptMove(world, box, start, axis, amount, radius, height, cell.x, cell.y, cell.z, cell.x, cell.y, cell.z + 1, hit, limit, best);
  }

  /** Past the last z of a row, the sweep continues at the first z of the next row. */
  lemma SweptNextRow(world: VoxelWorld, box: AABB, start: real, axis: Axis, amount: real, radius: real, height: real,
                     x: int, y: int, z: int, hit: bool, limit: real, best: Cell)
    requires world.Valid() && z > ScanHi(box.max.z, world.depth)
    requires Swept(world, box, start, axis, amount, radius, height, x, y, z, hit, limit, best)
    ensures Swept(world, box, start, axis, amount, radius, height, x, y + 1, ScanLo(box.min.z), hit, limit, best)
  {
    SweptMove(world, box, start, axis, amount, radius, height, x, y, z, x, y + 1, ScanLo(box.min.z), hit, limit, best);
  }

  /** Past the last y of a slice, the sweep continues at the first row of the next slice. */
  lemma SweptNextSlice(world: VoxelWorld, box: AABB, start: real, axis: Axis, amount: real, radius: real, height: real,
                       x: int, y: int, hit: bool, limit: real, best: Cell)
    requires world.Valid() && y > ScanHi(box.max.y, world.height)
    requires Swept(world, box, start, axis, amount, radius, height, x, y, ScanLo(box.min.z), hit, limit, best)
    ensures Swept(world, box, start, axis, amount, radius, height, x + 1, ScanLo(box.min.y), ScanLo(box.min.z), hit, limit, best)
  {
    SweptMove(world, box, start, axis, amount, radius, height, x, y, ScanLo(box.min.z),
              x + 1, ScanLo(box.min.y), ScanLo(box.min.z), hit, limit, best);
  }

  /** Before the first cell nothing has been visited. */
  lemma SweptInitial(world: VoxelWorld, box: AABB, start: real, axis: Axis, amount: real, radius: real, height: real)
    requires world.Valid()
    ensures Swept(world, box, start, axis, amount, radius, height,
                  ScanLo(box.min.x), ScanLo(box.min.y), ScanLo(box.min.z), false, start, Cell(0, 0, 0))
  {
  }

  /** Once every slice has been visited, the sweep's state is the outcome `AxisResolved` describes. */
  lemma SweptFinal(world: VoxelWorld, pos: Vec3, vel: Vec3, axis: Axis, amount: real, radius: real, height: real,
                   x: int, hit: bool, limit: real, best: Cell)
    requires world.Valid() && amount != 0.0
    requires var box := PlayerAABB(Shifted(pos, axis, amount), radius, height);
      && x > ScanHi(box.max.x, world.width)
      && Swept(world, box, Component(pos, axis) + amount, axis, amount, radius, height,
               x, ScanLo(box.min.y), ScanLo(box.min.z), hit, limit, best)
    ensures var next := Shifted(pos, axis, amount);
      AxisResolved(world, pos, vel, axis, amount, radius, height,
        if hit then AxisResult(WithComponent(next, axis, limit), WithComponent(vel, axis, 0.0), axis == Y && amount < 0.0)
        else AxisResult(next, vel, false))
  {
    var next := Shifted(pos, axis, amount);
    var box := PlayerAABB(next, radius, height);
    assert forall c :: SolidHit(world, box, c) ==> Visited(c, x, ScanLo(box.min.y), ScanLo(box.min.z));
    if hit {
      var res := AxisResult(WithComponent(next, axis, limit), WithComponent(vel, axis, 0.0), axis == Y && amount < 0.0);
      assert Component(res.pos, axis) == limit;
      assert SolidHit(world, box, best) && res.pos == WithComponent(next, axis, Candidate(best, axis, amount, radius, height));
    }
  }

  /** `collideAxis(...)`: moves `pos` by `amount` along `axis` and resolves the move against the grid. */
  method CollideAxis(world: VoxelWorld, pos: Vec3, vel: Vec3, axis: Axis, amount: real, radius: real, height: real)
    returns (res: AxisResult)
    requires world.Valid()
    ensures AxisResolved(world, pos, vel, axis, amount, radius, height, res)
  {
    if amount == 0.0 {
      return AxisResult(pos, vel, false);
    }
    var next := Shifted(pos, axis, amount);
    var box := PlayerAABB(next, radius, height);
    forall c | SolidHit(world, box, c)
      ensures var cand := Candidate(c, axis, amount, radius, height);
        if amount > 0.0 then cand < Component(next, axis) else cand > Component(next, axis)
    {
      CandidateBehindNext(world, pos, axis, amount, radius, height, c);
    }
    var hit, limit, x, best := SweepStops(world, box, Component(next, axis), axis, amount, radius, height);
    SweptFinal(world, pos, vel, axis, amount, radius, height, x, hit, limit, best);
    if !hit {
      return AxisResult(next, vel, false);
    }
    return AxisResult(WithComponent(next, axis, limit), WithComponent(vel, axis, 0.0), axis == Y && amount < 0.0);
  }

  /**
   * The triple loop of `collideAxis`: visits the scanned cells and tracks
   * whether any was a hit and the tightest stop among the hits.
   */
  method SweepStops(world: VoxelWorld, box: AABB, start: real, axis: Axis, amount: real, radius: real, height: real)
    returns (hit: bool, limit: real, x: int, ghost best: Cell)
    requires world.Valid() && amount != 0.0
    requires forall c :: SolidHit(world, box, c) ==>
      var cand := Candidate(c, axis, amount, radius, height);
      if amount > 0.0 then cand < start else cand > start
    ensures x > ScanHi(box.max.x, world.width)
    ensures Swept(world, box, start, axis, amount, radius, height, x, ScanLo(box.min.y), ScanLo(box.min.z), hit, limit, best)
  {
    var maxX, maxY := ScanHi(box.max.x, world.width), ScanHi(box.max.y, world.height);
    var minX, minY, minZ := ScanLo(box.min.x), ScanLo(box.min.y), ScanLo(box.min.z);
    hit, limit, best := false, start, Cell(0, 0, 0);
    SweptInitial(world, box, start, axis, amount, radius, height);

    x := minX;
    while x <= maxX
      invariant minX <= x && (x <= maxX + 1 || x == minX)
      invariant Swept(world, box, start, axis, amount, radius, height, x, minY, minZ, hit, limit, best)
    {
      hit, limit, best := SweepSlice(world, box, start, axis, amount, radius, height, x, hit, limit, best);
      x := x + 1;
    }
  }

  /** The middle loop of `collideAxis`: the scanned rows of slice x. */
  method SweepSlice(world: VoxelWorld, box: AABB, start: real, axis: Axis, amount: real, radius: real, height: real,
                    x: int, hit0: bool, limit0: real, ghost best0: Cell)
    returns (hit: bool, limit: real, ghost best: Cell)
    requires world.Valid() && amount != 0.0
    requires forall c :: SolidHit(world, box, c) ==>
      var cand := Candidate(c, axis, amount, radius, height);
      if amount > 0.0 then cand < start else cand > start
    requires ScanLo(box.min.x) <= x <= ScanHi(box.max.x, world.width)
    requires Swept(world, box, start, axis, amount, radius, height, x, ScanLo(box.min.y), ScanLo(box.min.z), hit0, limit0, best0)
    ensures Swept(world, box, start, axis, amount, radius, height, x + 1, ScanLo(box.min.y), ScanLo(box.min.z), hit, limit, best)
  {
    var maxY := ScanHi(box.max.y, world.height);
    hit, limit, best := hit0, limit0, best0;
    var y := ScanLo(box.min.y);
    while y <= maxY
      invariant ScanLo(box.min.y) <= y
      invariant Swept(world, box, start, axis, amount, radius, height, x, y, ScanLo(box.min.z), hit, limit, best)
    {
      hit, limit, best := SweepRow(world, box, start, axis, amount, radius, height, x, y, hit, limit, best);
      y := y + 1;
    }
    SweptNextSlice(world, box, start, axis, amount, radius, height, x, y, hit, limit, best);
  }

  /** The innermost loop of `collideAxis`: the scanned cells of row (x, y). */
  method SweepRow(world: VoxelWorld, box: AABB, start: real, axis: Axis, amount: real, radius: real, height: real,
                  x: int, y: int, hit0: bool, limit0: real, ghost best0: Cell)
    returns (hit: bool, limit: real, ghost best: Cell)
    requires world.Valid() && amount != 0.0
    requires forall c :: SolidHit(world, box, c) ==>
      var cand := Candidate(c, axis, amount, radius, height);
      if amount > 0.0 then cand < start else cand > start
    requires ScanLo(box.min.x) <= x <= ScanHi(box.max.x, world.width)
    requires ScanLo(box.min.y) <= y <= ScanHi(box.max.y, world.height)
    requires Swept(world, box, start, axis, amount, radius, height, x, y, ScanLo(box.min.z), hit0, limit0, best0)
    ensures Swept(world, box, start, axis, amount, radius, height, x, y + 1, ScanLo(box.min.z), hit, limit, best)
  {
    var maxZ := ScanHi(box.max.z, world.depth);
    hit, limit, best := hit0, limit0, best0;
    var z := ScanLo(box.min.z);
    while z <= maxZ
      invariant ScanLo(box.min.z) <= z
      invariant Swept(world, box, start, axis, amount, radius, height, x, y, z, hit, limit, best)
    {
      hit, limit, best := SweepCell(world, box, start, axis, amount, radius, height, Cell(x, y, z), hit, limit, best);
      z := z + 1;
    }
    SweptNextRow(world, box, start, axis, amount, radius, height, x, y, z, hit, limit, best);
  }

  /** The body of the z loop: one cell, which updates the nearest stop when it is a hit. */
  method SweepCell(world: VoxelWorld, box: AABB, start: real, axis: Axis, amount: real, radius: real, height: real,
                   cell: Cell, hit0: bool, limit0: real, ghost best0: Cell)
    returns (hit: bool, limit: real, ghost best: Cell)
    requires world.Valid() && amount != 0.0
    requires forall c :: SolidHit(world, box, c) ==>
      var cand := Candidate(c, axis, amount, radius, height);
      if amount > 0.0 then cand < start else cand > start
    requires InScan(world, box, cell)
    requires Swept(world, box, start, axis, amount, radius, height, cell.x, cell.y, cell.z, hit0, limit0, best0)
    ensures Swept(world, box, start, axis, amount, radius, height, cell.x, cell.y, cell.z + 1, hit, limit, best)
  {
    hit, limit, best := hit0, limit0, best0;
    var blockId := world.Get(cell.x, cell.y, cell.z);
    if IsSolid(blockId) && Intersects(box, BlockAABB(cell)) {
      assert SolidHit(world, box, cell);
      hit := true;
      var candidate := Candidate(cell, axis, amount, radius, height);
      if amount > 0.0 {
        if candidate < limit {
          limit, best := candidate, cell;
        }
      } else {
        if candidate > limit {
          limit, best := candidate, cell;
        }
      }
      SweptCell(world, box, start, axis, amount, radius, height, cell, hit0, limit0, best0, limit, best);
    } else {
      SweptMiss(world, box, start, axis, amount, radius, height, cell, hit, limit, best);
    }
  }

  /** Visiting a hit cell: the state after taking the tighter of the old limit and the cell's stop. */
  lemma SweptCell(world: VoxelWorld, box: AABB, start: real, axis: Axis, amount: real, radius: real, height: real,
                  cell: Cell, hit: bool, limit: real, best: Cell, limit': real, best': Cell)
    requires world.Valid() && amount != 0.0
    requires SolidHit(world, box, cell)
    requires Swept(world, box, start, axis, amount, radius, height, cell.x, cell.y, cell.z, hit, limit, best)
    requires var cand := Candidate(cell, axis, amount, radius, height);
      !hit ==> (if amount > 0.0 then cand < start else cand > start)
    requires var cand := Candidate(cell, axis, amount, radius, height);
      if (if amount > 0.0 then cand < limit else cand > limit) then limit' == cand && best' == cell
      else limit' == limit && best' == best
    ensures Swept(world, box, start, axis, amount, radius, height, cell.x, cell.y, cell.z + 1, true, limit', best')
  {
    forall c | SolidHit(world, box, c) && Visited(c, cell.x, cell.y, cell.z + 1)
      ensures NotBeyond(amount, limit', Candidate(c, axis, amount, radius, height))
    {
      if c != cell {
        assert Visited(c, cell.x, cell.y, cell.z);
      }
    }
    assert Visited(cell, cell.x, cell.y, cell.z + 1);
  }

  /** Only the moved coordinate of the position, and only that component of the velocity, can change. */
  lemma OnlyMovedAxisChanges(world: VoxelWorld, pos: Vec3, vel: Vec3, axis: Axis, amount: real,
                             radius: real, height: real, res: AxisResult, other: Axis)
    requires world.Valid() && other != axis
    requires AxisResolved(world, pos, vel, axis, amount, radius, height, res)
    ensures Component(res.pos, other) == Component(pos, other)
    ensures Component(res.vel, other) == Component(vel, other)
  {
  }

  /**
   * The stop never lies beyond the requested coordinate, and on a hit it lies
   * strictly behind it; without a hit the move is taken in full and the
   * velocity is untouched.
   */
  lemma StopWithinRequest(world: VoxelWorld, pos: Vec3, vel: Vec3, axis: Axis, amount: real,
                          radius: real, height: real, res: AxisResult)
    requires world.Valid()
    requires AxisResolved(world, pos, vel, axis, amount, radius, height, res)
    ensures var goal := Component(pos, axis) + amount;
      var got := Component(res.pos, axis);
      var box := PlayerAABB(Shifted(pos, axis, amount), radius, height);
      && (amount > 0.0 ==> got <= goal)
      && (amount < 0.0 ==> got >= goal)
      && ((exists c :: SolidHit(world, box, c)) && amount != 0.0 ==> got != goal && Component(res.vel, axis) == 0.0)
      && (!(exists c :: SolidHit(world, box, c)) ==> got == goal && res.vel == vel)
  {
    if amount != 0.0 {
      var box := PlayerAABB(Shifted(pos, axis, amount), radius, height);
      if exists c :: SolidHit(world, box, c) {
        var w :| SolidHit(world, box, w) &&
          res.pos == WithComponent(Shifted(pos, axis, amount), axis, Candidate(w, axis, amount, radius, height));
        CandidateBehindNext(world, pos, axis, amount, radius, height, w);
      }
    }
  }

  /** The resolved box is clear of every cell that blocked the move. */
  lemma ResolvedClearOfHits(world: VoxelWorld, pos: Vec3, vel: Vec3, axis: Axis, amount: real,
                            radius: real, height: real, res: AxisResult, c: Cell)
    requires world.Valid() && amount != 0.0
    requires AxisResolved(world, pos, vel, axis, amount, radius, height, res)
    requires SolidHit(world, PlayerAABB(Shifted(pos, axis, amount), radius, height), c)
    ensures !Intersects(PlayerAABB(res.pos, radius, height), BlockAABB(c))
  {
    var stop := Component(res.pos, axis);
    assert NotBeyond(amount, stop, Candidate(c, axis, amount, radius, height));
  }

  /** `onGroundHit` fires exactly for a downward move on Y that hit a cell. */
  lemma GroundHitIff(world: VoxelWorld, pos: Vec3, vel: Vec3, axis: Axis, amount: real,
                     radius: real, height: real, res: AxisResult)
    requires world.Valid()
    requires AxisResolved(world, pos, vel, axis, amount, radius, height, res)
    ensures res.groundHit <==>
      axis == Y && amount < 0.0 && exists c :: SolidHit(world, PlayerAABB(Shifted(pos, axis, amount), radius, height), c)
  {
  }

  /** A downward stop on Y puts the feet EPS above the top face of a solid cell, with no extent added. */
  lemma LandsOnBlockTop(world: VoxelWorld, pos: Vec3, vel: Vec3, amount: real,
                        radius: real, height: real, res: AxisResult)
    requires world.Valid() && amount < 0.0
    requires AxisResolved(world, pos, vel, Y, amount, radius, height, res)
    requires res.groundHit
    ensures exists c: Cell :: world.InBounds(c.x, c.y, c.z) && IsSolid(world.Get(c.x, c.y, c.z)) && res.pos.y == c.y as real + 1.0 + Eps
  {
    var box := PlayerAABB(Shifted(pos, Y, amount), radius, height);
    var w :| SolidHit(world, box, w) && res.pos == WithComponent(Shifted(pos, Y, amount), Y, Candidate(w, Y, amount, radius, height));
    InScanIff(world, box, w);
    assert world.InBounds(w.x, w.y, w.z) && IsSolid(world.Get(w.x, w.y, w.z)) && res.pos.y == w.y as real + 1.0 + Eps;
  }
}
