/**
 * Axis-aligned boxes (src/physics/aabb.ts): the unit cube of a voxel cell and
 * the strict overlap test between two boxes.
 */
module Aabb {
  import opened Geometry

  datatype AABB = AABB(min: Vec3, max: Vec3)

  /** `blockAABB(x, y, z)`: the unit cube whose lowest corner is the cell. */
  function BlockAABB(c: Cell): (b: AABB)
    ensures b.min == CellVec(c)
    ensures b.max == Add(CellVec(c), Vec3(1.0, 1.0, 1.0))
  {
    AABB(Vec3(c.x as real, c.y as real, c.z as real),
         Vec3(c.x as real + 1.0, c.y as real + 1.0, c.z as real + 1.0))
  }

  /** `intersects(a, b)`, with strict comparisons on every axis. */
  predicate Intersects(a: AABB, b: AABB)
  {
    && a.min.x < b.max.x && a.max.x > b.min.x
    && a.min.y < b.max.y && a.max.y > b.min.y
    && a.min.z < b.max.z && a.max.z > b.min.z
  }

  /** The point lies strictly inside the box. */
  predicate Inside(p: Vec3, b: AABB)
  {
    && b.min.x < p.x < b.max.x
    && b.min.y < p.y < b.max.y
    && b.min.z < p.z < b.max.z
  }

  lemma IntersectsSymmetric(a: AABB, b: AABB)
    ensures Intersects(a, b) <==> Intersects(b, a)
  {
  }

  /** The midpoint of the two open intervals' overlap lies strictly inside both. */
  function OverlapMid(lo1: real, hi1: real, lo2: real, hi2: real): (m: real)
    requires lo1 < hi2 && hi1 > lo2 && lo1 < hi1 && lo2 < hi2
    ensures lo1 < m < hi1 && lo2 < m < hi2
  {
    (Max(lo1, lo2) + Min(hi1, hi2)) / 2.0
  }

  /**
   * For boxes with positive extent on every axis, `intersects` holds exactly
   * when the two open boxes share a point.
   */
  lemma IntersectsIffSharedPoint(a: AABB, b: AABB)
    requires a.min.x < a.max.x && a.min.y < a.max.y && a.min.z < a.max.z
    requires b.min.x < b.max.x && b.min.y < b.max.y && b.min.z < b.max.z
    ensures Intersects(a, b) <==> exists p :: Inside(p, a) && Inside(p, b)
  {
    if Intersects(a, b) {
      var p := Vec3(OverlapMid(a.min.x, a.max.x, b.min.x, b.max.x),
                    OverlapMid(a.min.y, a.max.y, b.min.y, b.max.y),
                    OverlapMid(a.min.z, a.max.z, b.min.z, b.max.z));
      assert Inside(p, a) && Inside(p, b);
    }
  }

  /** Boxes that only touch on some axis do not intersect: the comparisons are strict. */
  lemma TouchingBoxesDoNotIntersect(a: AABB, b: AABB)
    requires a.max.x == b.min.x || a.max.y == b.min.y || a.max.z == b.min.z
    ensures !Intersects(a, b) && !Intersects(b, a)
  {
  }

  /** The unit cubes of two distinct cells never intersect (neighbours share at most a face). */
  lemma DistinctCellsDoNotIntersect(c: Cell, d: Cell)
    requires c != d
    ensures !Intersects(BlockAABB(c), BlockAABB(d))
  {
    if c.x != d.x {
      assert c.x + 1 <= d.x || d.x + 1 <= c.x;
    } else if c.y != d.y {
      assert c.y + 1 <= d.y || d.y + 1 <= c.y;
    } else {
      assert c.z + 1 <= d.z || d.z + 1 <= c.z;
    }
  }
}
