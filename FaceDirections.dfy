/**
 * The six face directions of a unit cube (src/world/faceDirections.ts): each
 * face has a name, an outward axis direction and four corner offsets that the
 * mesher adds to a cell's origin.
 */
module FaceDirections {
  import opened Geometry

  datatype FaceName = PX | NX | PY | NY | PZ | NZ

  datatype FaceDirection = FaceDirection(name: FaceName, dir: Cell, corners: seq<Cell>)

  const FacePX := FaceDirection(PX, Cell(1, 0, 0), [Cell(1, 1, 1), Cell(1, 0, 1), Cell(1, 0, 0), Cell(1, 1, 0)])
  const FaceNX := FaceDirection(NX, Cell(-1, 0, 0), [Cell(0, 1, 0), Cell(0, 0, 0), Cell(0, 0, 1), Cell(0, 1, 1)])
  const FacePY := FaceDirection(PY, Cell(0, 1, 0), [Cell(0, 1, 1), Cell(1, 1, 1), Cell(1, 1, 0), Cell(0, 1, 0)])
  const FaceNY := FaceDirection(NY, Cell(0, -1, 0), [Cell(0, 0, 0), Cell(1, 0, 0), Cell(1, 0, 1), Cell(0, 0, 1)])
  const FacePZ := FaceDirection(PZ, Cell(0, 0, 1), [Cell(0, 1, 1), Cell(0, 0, 1), Cell(1, 0, 1), Cell(1, 1, 1)])
  const FaceNZ := FaceDirection(NZ, Cell(0, 0, -1), [Cell(1, 1, 0), Cell(1, 0, 0), Cell(0, 0, 0), Cell(0, 1, 0)])

  /** `FACE_DIRECTIONS` */
  const FaceTable: seq<FaceDirection> := [FacePX, FaceNX, FacePY, FaceNY, FacePZ, FaceNZ]

  function CellAdd(a: Cell, b: Cell): Cell
  {
    Cell(a.x + b.x, a.y + b.y, a.z + b.z)
  }

  function CellSub(a: Cell, b: Cell): Cell
  {
    Cell(a.x - b.x, a.y - b.y, a.z - b.z)
  }

  function CellNeg(a: Cell): Cell
  {
    Cell(-a.x, -a.y, -a.z)
  }

  /** A vector with exactly one non-zero coordinate, which is 1 or -1. */
  predicate IsUnitAxis(d: Cell)
  {
    || ((d.x == 1 || d.x == -1) && d.y == 0 && d.z == 0)
    || (d.x == 0 && (d.y == 1 || d.y == -1) && d.z == 0)
    || (d.x == 0 && d.y == 0 && (d.z == 1 || d.z == -1))
  }

  predicate IsCubeCorner(c: Cell)
  {
    0 <= c.x <= 1 && 0 <= c.y <= 1 && 0 <= c.z <= 1
  }

  /** The corner lies on the face's plane: coordinate 1 on a positive axis, 0 on a negative one. */
  predicate OnFacePlane(d: Cell, c: Cell)
  {
    && (d.x == 1 ==> c.x == 1) && (d.x == -1 ==> c.x == 0)
    && (d.y == 1 ==> c.y == 1) && (d.y == -1 ==> c.y == 0)
    && (d.z == 1 ==> c.z == 1) && (d.z == -1 ==> c.z == 0)
  }

  /**
   * Triangle (a, b, c) is wound counter-clockwise when seen from outside along
   * `d`: the triple product d . ((b - a) x (c - a)) is positive. For corners on
   * the face's plane this means the triangle's normal points along `d`.
   */
  predicate WindsOutward(d: Cell, a: Cell, b: Cell, c: Cell)
  {
    var ux, uy, uz := b.x - a.x, b.y - a.y, b.z - a.z;
    var vx, vy, vz := c.x - a.x, c.y - a.y, c.z - a.z;
    d.x * (uy * vz - uz * vy) + d.y * (uz * vx - ux * vz) + d.z * (ux * vy - uy * vx) > 0
  }

  /** A corner of the unit cube that lies on the plane of the face with direction `d`. */
  predicate CornerOnFace(d: Cell, c: Cell)
  {
    IsCubeCorner(c) && OnFacePlane(d, c)
  }

  predicate Distinct4(a: Cell, b: Cell, c: Cell, e: Cell)
  {
    a != b && a != c && a != e && b != c && b != e && c != e
  }

  /**
   * A unit axis direction and four distinct corners on the face's plane, wound
   * so that both triangles (0, 1, 2) and (0, 2, 3) face outward.
   */
  predicate WellFormedFace(f: FaceDirection)
  {
    && IsUnitAxis(f.dir)
    && |f.corners| == 4
    && var c0, c1, c2, c3 := f.corners[0], f.corners[1], f.corners[2], f.corners[3];
    && Distinct4(c0, c1, c2, c3)
    && CornerOnFace(f.dir, c0) && CornerOnFace(f.dir, c1)
    && CornerOnFace(f.dir, c2) && CornerOnFace(f.dir, c3)
    && WindsOutward(f.dir, c0, c1, c2)
    && WindsOutward(f.dir, c0, c2, c3)
  }

  /** Six faces in the order px, nx, py, ny, pz, nz; consecutive pairs are opposite. */
  lemma FaceTableShape()
    ensures |FaceTable| == 6
    ensures FaceTable[0].name == PX && FaceTable[1].name == NX && FaceTable[2].name == PY
    ensures FaceTable[3].name == NY && FaceTable[4].name == PZ && FaceTable[5].name == NZ
    ensures FaceTable[1].dir == CellNeg(FaceTable[0].dir)
    ensures FaceTable[3].dir == CellNeg(FaceTable[2].dir)
    ensures FaceTable[5].dir == CellNeg(FaceTable[4].dir)
  {
    FaceTableNames();
    FaceTableOpposites();
  }

  lemma FaceTableNames()
    ensures |FaceTable| == 6
    ensures FaceTable[0].name == PX && FaceTable[1].name == NX && FaceTable[2].name == PY
    ensures FaceTable[3].name == NY && FaceTable[4].name == PZ && FaceTable[5].name == NZ
  {
  }

  lemma FaceTableOpposites()
    ensures |FaceTable| == 6
    ensures FaceTable[1].dir == CellNeg(FaceTable[0].dir)
    ensures FaceTable[3].dir == CellNeg(FaceTable[2].dir)
    ensures FaceTable[5].dir == CellNeg(FaceTable[4].dir)
  {
  }

  /** Every face has a unit axis direction and four distinct, coplanar, outward-wound corners. */
  lemma FaceTableWellFormed()
    ensures forall k :: 0 <= k < |FaceTable| ==> WellFormedFace(FaceTable[k])
  {
    PXWellFormed();
    NXWellFormed();
    PYWellFormed();
    NYWellFormed();
    PZWellFormed();
    NZWellFormed();
  }

  lemma PXWellFormed() ensures WellFormedFace(FacePX) { }
  lemma NXWellFormed() ensures WellFormedFace(FaceNX) { }
  lemma PYWellFormed() ensures WellFormedFace(FacePY) { }
  lemma NYWellFormed() ensures WellFormedFace(FaceNY) { }
  lemma PZWellFormed() ensures WellFormedFace(FacePZ) { }
  lemma NZWellFormed() ensures WellFormedFace(FaceNZ) { }

  /** Each face name occurs exactly once, so the table can be looked up by name. */
  lemma FaceNamesDistinct()
    ensures forall i, j :: 0 <= i < j < |FaceTable| ==> FaceTable[i].name != FaceTable[j].name
  {
  }

  /** The six directions are pairwise different. */
  lemma FaceDirsDistinct()
    ensures forall i, j :: 0 <= i < j < |FaceTable| ==> FaceTable[i].dir != FaceTable[j].dir
  {
  }

  /** No entry of the table is the zero vector. */
  lemma FaceDirNonZero(i: nat)
    requires i < |FaceTable|
    ensures FaceTable[i].dir != Cell(0, 0, 0)
  {
  }

  /** Two different entries of the table point in different, non-zero directions. */
  lemma FaceDirsApart(i: nat, j: nat)
    requires i < |FaceTable| && j < |FaceTable| && i != j
    ensures FaceTable[i].dir != FaceTable[j].dir && FaceTable[i].dir != Cell(0, 0, 0)
  {
    FaceDirsDistinct();
  }
}
