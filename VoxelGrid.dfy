/**
 * The dense block grid (src/world/VoxelWorld.ts): one byte per cell of a
 * `width * height * depth` box. Reads outside the bounds give 0 (air) and
 * writes outside the bounds are ignored.
 *
 * The source keeps the bytes in one flat `Uint8Array` at
 * `x + z * width + y * width * depth`. Here the cells are a three-dimensional
 * array read at `[x, y, z]`; `Index` is the flat layout, and `IndexInRange`
 * and `IndexInjective` show that it gives every in-bounds cell its own slot
 * of the buffer, so the two stores hold the same cells.
 */
module VoxelGrid {

  /** A cell of the `Uint8Array` behind the grid. */
  type Byte = b: int | 0 <= b < 256

  /** The value a `Uint8Array` stores when an integer is written into it. */
  function ToByte(v: int): (b: Byte)
    ensures 0 <= v < 256 ==> b == v
    ensures (b - v) % 256 == 0
  {
    v % 256
  }

  lemma MulNonNegative(p: int, q: int)
    requires p >= 0 && q >= 0
    ensures p * q >= 0
  {
  }

  lemma MulDistributes(p: int, q: int, m: int)
    ensures (p - q) * m == p * m - q * m
  {
  }

  /** 0 <= a < m and 0 <= b < n give a + b * m < m * n. */
  lemma MixedRadixBound(a: int, b: int, m: int, n: int)
    requires 0 <= a < m && 0 <= b < n
    ensures 0 <= a + b * m < m * n
  {
    MulNonNegative(b, m);
    MulNonNegative(n - b - 1, m);
    MulDistributes(n, b + 1, m);
    MulDistributes(b + 1, 1, m);
    assert m * n == n * m;
  }

  /** The digits of a mixed-radix number are determined by its value. */
  lemma MixedRadixInjective(a1: int, b1: int, a2: int, b2: int, m: int)
    requires 0 <= a1 < m && 0 <= a2 < m
    requires a1 + b1 * m == a2 + b2 * m
    ensures a1 == a2 && b1 == b2
  {
    if b1 != b2 {
      var hi, lo := if b1 < b2 then b2 else b1, if b1 < b2 then b1 else b2;
      MulNonNegative(hi - lo - 1, m);
      MulDistributes(hi - lo, 1, m);
      MulDistributes(hi, lo, m);
      assert false;
    }
  }

  class VoxelWorld {
    const width: nat
    const height: nat
    const depth: nat
    const data: array3<Byte>

    ghost predicate Valid()
      reads this
    {
      data.Length0 == width && data.Length1 == height && data.Length2 == depth
    }

    /** A grid of the given size with every cell 0 (air). */
    constructor (width: nat, height: nat, depth: nat)
      ensures Valid() && fresh(data)
      ensures this.width == width && this.height == height && this.depth == depth
      ensures forall x, y, z :: Get(x, y, z) == 0
    {
      this.width := width;
      this.height := height;
      this.depth := depth;
      data := new Byte[width, height, depth]((_, _, _) => 0);
    }

    predicate InBounds(x: int, y: int, z: int)
      reads this
    {
      x >= 0 && y >= 0 && z >= 0 && x < width && y < height && z < depth
    }

    /** `index(x, y, z)` */
    function Index(x: int, y: int, z: int): int
      reads this
    {
      x + z * width + y * (width * depth)
    }

    /** Every in-bounds coordinate lands inside the array. */
    lemma IndexInRange(x: int, y: int, z: int)
      requires InBounds(x, y, z)
      ensures 0 <= Index(x, y, z) < width * height * depth
    {
      MixedRadixBound(x, z, width, depth);
      MixedRadixBound(x + z * width, y, width * depth, height);
      assert width * depth * height == width * height * depth;
    }

    /** Distinct in-bounds coordinates have distinct indices. */
    lemma IndexInjective(x1: int, y1: int, z1: int, x2: int, y2: int, z2: int)
      requires InBounds(x1, y1, z1) && InBounds(x2, y2, z2)
      requires Index(x1, y1, z1) == Index(x2, y2, z2)
      ensures x1 == x2 && y1 == y2 && z1 == z2
    {
      MixedRadixBound(x1, z1, width, depth);
      MixedRadixBound(x2, z2, width, depth);
      MixedRadixInjective(x1 + z1 * width, y1, x2 + z2 * width, y2, width * depth);
      MixedRadixInjective(x1, z1, x2, z2, width);
    }

    /** `get(x, y, z)`: the stored byte, or 0 outside the grid. */
    function Get(x: int, y: int, z: int): (b: Byte)
      requires Valid()
      reads this, data
      ensures !InBounds(x, y, z) ==> b == 0
    {
      if InBounds(x, y, z) then
        data[x, y, z]
      else
        0
    }

    /**
     * `set(x, y, z, value)`: outside the grid nothing changes; inside, the cell
     * reads back `value` modulo 256 and every other cell keeps its value.
     */
    method Set(x: int, y: int, z: int, value: int)
      requires Valid()
      modifies data
      ensures Valid()
      ensures !InBounds(x, y, z) ==> unchanged(data)
      ensures InBounds(x, y, z) ==> Get(x, y, z) == ToByte(value)
      ensures forall a, b, c :: (a != x || b != y || c != z) ==> Get(a, b, c) == old(Get(a, b, c))
    {
      if !InBounds(x, y, z) {
        return;
      }
      data[x, y, z] := ToByte(value);
    }

    /**
     * The column (x, z) scanned downward from row `y`: one above the highest
     * non-zero cell at or below `y`, or 1 when there is none.
     */
    function SurfaceFrom(x: int, z: int, y: int): (r: int)
      requires Valid()
      reads this, data
      decreases y + 1
      ensures 1 <= r && (r == 1 || r <= y + 1)
      ensures forall k :: r <= k <= y ==> Get(x, k, z) == 0
      ensures r > 1 ==> Get(x, r - 1, z) != 0
    {
      if y < 0 then 1
      else if Get(x, y, z) != 0 then y + 1
      else SurfaceFrom(x, z, y - 1)
    }

    /** The height just above the top non-air cell of column (x, z). */
    function SurfaceOf(x: int, z: int): (r: int)
      requires Valid()
      reads this, data
      ensures 1 <= r && (r == 1 || r <= height)
      ensures forall k :: r <= k < height ==> Get(x, k, z) == 0
      ensures r > 1 ==> Get(x, r - 1, z) != 0
    {
      SurfaceFrom(x, z, height - 1)
    }

    /** `surfaceY(x, z)`: the downward scan of the column, stopping at the first non-air cell. */
    method SurfaceY(x: int, z: int) returns (r: int)
      requires Valid()
      ensures r == SurfaceOf(x, z)
    {
      var y := height - 1;
      while y >= 0
        invariant -1 <= y <= height - 1
        invariant SurfaceFrom(x, z, y) == SurfaceOf(x, z)
      {
        if Get(x, y, z) != 0 {
          return y + 1;
        }
        y := y - 1;
      }
      return 1;
    }
  }
}
