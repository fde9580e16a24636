/**
 * The face-culled mesher (src/world/mesher.ts, the array-building part): for
 * every solid block with faces, and for each of its six faces whose neighbour
 * cell reads 0, one quad of four vertices and six indices is appended to the
 * position, normal, uv and index arrays.
 *
 * The quads are specified in two layers: what one cell emits (`CellQuads`),
 * and the order in which the x, y and z loops visit the cells (`ColumnOf`,
 * `SliceOf`, `SlicesOf`, over any assignment of quads to cells).
 */
module Mesher {
  import opened Wrappers
  import opened Geometry
  import opened FaceDirections
  import opened Blocks
  import opened VoxelGrid

  /** The texture rectangle of one tile in the atlas (src/world/atlas.ts). */
  datatype AtlasUV = AtlasUV(u0: real, v0: real, u1: real, v1: real)

  /** One emitted face: the block's cell, the face and the tile painted on it. */
  datatype Quad = Quad(cell: Cell, face: FaceDirection, tile: TileKey)

  /** The four arrays handed to the geometry. */
  datatype MeshArrays = MeshArrays(positions: seq<int>, normals: seq<int>, uvs: seq<real>, indices: seq<int>)

  // What one cell emits

  /** `block?.solid && block.faces`: the tiles of a solid block that has faces. */
  function SolidFaces(id: int): Option<FaceTiles>
  {
    if IsSolid(id) then BlockFaces(id) else None
  }

  /** The neighbour of `c` across face `f`. */
  function Neighbour(c: Cell, f: FaceDirection): Cell
  {
    CellAdd(c, f.dir)
  }

  /** The neighbour of cell `c` across face `k` of the table reads 0. */
  predicate AirAcross(world: VoxelWorld, c: Cell, k: nat)
    requires world.Valid() && k < |FaceTable|
    reads world, world.data
  {
    var n := Neighbour(c, FaceTable[k]);
    world.Get(n.x, n.y, n.z) == 0
  }

  /** The quad of face `k` of cell `c` when the neighbour across it reads 0, else nothing. */
  function FaceQuad(world: VoxelWorld, c: Cell, tiles: FaceTiles, k: nat): seq<Quad>
    requires world.Valid() && k < |FaceTable|
    reads world, world.data
  {
    var face := FaceTable[k];
    if AirAcross(world, c, k) then [Quad(c, face, TileFor(tiles, face.name))] else []
  }

  /** The quads of cell `c` for the first `k` faces of the table, in table order. */
  function FaceQuads(world: VoxelWorld, c: Cell, tiles: FaceTiles, k: nat): seq<Quad>
    requires world.Valid() && k <= |FaceTable|
    reads world, world.data
  {
    if k == 0 then [] else FaceQuads(world, c, tiles, k - 1) + FaceQuad(world, c, tiles, k - 1)
  }

  /** The quads the mesher emits for cell `c`. */
  function CellQuads(world: VoxelWorld, c: Cell): seq<Quad>
    requires world.Valid()
    reads world, world.data
  {
    match SolidFaces(world.Get(c.x, c.y, c.z))
    case None => []
    case Some(tiles) => FaceQuads(world, c, tiles, |FaceTable|)
  }

  // The order of the loops

  /** An assignment of quads to cells; cells it leaves out emit nothing. */
  type Emission = imap<Cell, seq<Quad>>

  function At(e: Emission, c: Cell): seq<Quad>
  {
    if c in e then e[c] else []
  }

  /** The parts 0 .. n - 1, one after the other: the order of one counting loop. */
  function Concat(parts: int -> seq<Quad>, n: int): seq<Quad>
    decreases n
  {
    if n <= 0 then [] else Concat(parts, n - 1) + parts(n - 1)
  }

  /** The cells of column (x, y), by z. */
  function CellParts(e: Emission, x: int, y: int): int -> seq<Quad>
  {
    z => At(e, Cell(x, y, z))
  }

  /** The cells (x, y, 0) .. (x, y, zEnd - 1), in loop order. */
  function ColumnOf(e: Emission, x: int, y: int, zEnd: int): seq<Quad>
  {
    Concat(CellParts(e, x, y), zEnd)
  }

  /** The columns of slice x, by y, each `depth` cells long. */
  function ColumnParts(e: Emission, x: int, depth: int): int -> seq<Quad>
  {
    y => ColumnOf(e, x, y, depth)
  }

  /** The columns (x, 0) .. (x, yEnd - 1) of slice x, each `depth` cells long. */
  function SliceOf(e: Emission, x: int, yEnd: int, depth: int): seq<Quad>
  {
    Concat(ColumnParts(e, x, depth), yEnd)
  }

  /** The slices, by x. */
  function SliceParts(e: Emission, height: int, depth: int): int -> seq<Quad>
  {
    x => SliceOf(e, x, height, depth)
  }

  /** The slices 0 .. xEnd - 1. */
  function SlicesOf(e: Emission, xEnd: int, height: int, depth: int): seq<Quad>
  {
    Concat(SliceParts(e, height, depth), xEnd)
  }

  /** What every cell of the world emits. */
  ghost function Emissions(world: VoxelWorld): (e: Emission)
    requires world.Valid()
    reads world, world.data
  {
    imap c: Cell :: CellQuads(world, c)
  }

  lemma EmissionsAt(world: VoxelWorld, c: Cell)
    requires world.Valid()
    ensures At(Emissions(world), c) == CellQuads(world, c)
  {
  }

  ghost predicate CellsAgree(world: VoxelWorld, e: Emission)
    requires world.Valid()
    reads world, world.data
  {
    forall c {:trigger CellQuads(world, c)} :: At(e, c) == CellQuads(world, c)
  }

  lemma EmissionsAgree(world: VoxelWorld)
    requires world.Valid()
    ensures CellsAgree(world, Emissions(world))
  {
    forall c ensures At(Emissions(world), c) == CellQuads(world, c) {
      EmissionsAt(world, c);
    }
  }

  /** Every quad of the world, in the order the loops emit them. */
  ghost function WorldQuads(world: VoxelWorld): seq<Quad>
    requires world.Valid()
    reads world, world.data
  {
    SlicesOf(Emissions(world), world.width, world.height, world.depth)
  }

  // The values pushed for one quad

  /**
   * Vertex i of the quad: corner i of the face's template moved to the cell
   * (the cell itself for a missing corner; every face of the table has four).
   */
  function Vertex(q: Quad, i: nat): Cell
  {
    if i < |q.face.corners| then CellAdd(q.face.corners[i], q.cell) else q.cell
  }

  /** `facePositions`: the four vertices, flattened. */
  function QuadPositions(q: Quad): seq<int>
  {
    var v0, v1, v2, v3 := Vertex(q, 0), Vertex(q, 1), Vertex(q, 2), Vertex(q, 3);
    [v0.x, v0.y, v0.z, v1.x, v1.y, v1.z, v2.x, v2.y, v2.z, v3.x, v3.y, v3.z]
  }

  function QuadNormals(q: Quad): seq<int>
  {
    var d := q.face.dir;
    [d.x, d.y, d.z, d.x, d.y, d.z, d.x, d.y, d.z, d.x, d.y, d.z]
  }

  function QuadUVs(t: AtlasUV): seq<real>
  {
    [t.u1, t.v0, t.u1, t.v1, t.u0, t.v1, t.u0, t.v0]
  }

  /** The two triangles (0, 1, 2) and (0, 2, 3) of the quad whose first vertex is `base`. */
  function QuadIndices(base: int): seq<int>
  {
    [base, base + 1, base + 2, base, base + 2, base + 3]
  }

  /** The arrays for a list of quads, the k-th quad's vertices starting at 4 * k. */
  function MeshOf(qs: seq<Quad>, atlas: TileKey -> AtlasUV): MeshArrays
  {
    MeshArrays(Positions(qs), Normals(qs), UVs(qs, atlas), Indices(qs))
  }

  function Positions(qs: seq<Quad>): seq<int>
  {
    if qs == [] then [] else Positions(qs[..|qs| - 1]) + QuadPositions(qs[|qs| - 1])
  }

  function Normals(qs: seq<Quad>): seq<int>
  {
    if qs == [] then [] else Normals(qs[..|qs| - 1]) + QuadNormals(qs[|qs| - 1])
  }

  function UVs(qs: seq<Quad>, atlas: TileKey -> AtlasUV): seq<real>
  {
    if qs == [] then [] else UVs(qs[..|qs| - 1], atlas) + QuadUVs(atlas(qs[|qs| - 1].tile))
  }

  function Indices(qs: seq<Quad>): seq<int>
  {
    if qs == [] then [] else Indices(qs[..|qs| - 1]) + QuadIndices(4 * (|qs| - 1))
  }

  /** Appending one quad appends its four blocks of values. */
  lemma MeshOfAppend(qs: seq<Quad>, q: Quad, atlas: TileKey -> AtlasUV)
    ensures var m := MeshOf(qs, atlas);
      MeshOf(qs + [q], atlas) ==
        MeshArrays(m.positions + QuadPositions(q), m.normals + QuadNormals(q),
                   m.uvs + QuadUVs(atlas(q.tile)), m.indices + QuadIndices(4 * |qs|))
  {
    assert (qs + [q])[..|qs|] == qs;
  }

  // The loops

  /** The mesh arrays and the next vertex index are those of the quads emitted so far. */
  ghost predicate Emitted(mesh: MeshArrays, index: int, quads: seq<Quad>, atlas: TileKey -> AtlasUV)
  {
    mesh == MeshOf(quads, atlas) && index == 4 * |quads|
  }

  /**
   * `buildWorldMesh(world, atlas)` up to the geometry object: the arrays of
   * every emitted quad, in loop order.
   */
  method BuildWorldMesh(world: VoxelWorld, atlas: TileKey -> AtlasUV) returns (mesh: MeshArrays)
    requires world.Valid()
    ensures mesh == MeshOf(WorldQuads(world), atlas)
  {
    EmissionsAgree(world);
    mesh := EmitSlices(world, atlas, Emissions(world));
  }

  /** The x loop, for any emission that agrees with the world. */
  method EmitSlices(world: VoxelWorld, atlas: TileKey -> AtlasUV, ghost e: Emission) returns (mesh: MeshArrays)
    requires world.Valid() && CellsAgree(world, e)
    ensures mesh == MeshOf(SlicesOf(e, world.width, world.height, world.depth), atlas)
  {
    mesh := MeshArrays([], [], [], []);
    var index := 0;
    ghost var quads: seq<Quad> := [];
    var x := 0;
    while x < world.width
      invariant 0 <= x <= world.width
      invariant quads == SlicesOf(e, x, world.height, world.depth)
      invariant Emitted(mesh, index, quads, atlas)
    {
      mesh, index := EmitSlice(world, atlas, x, mesh, index, e, quads);
      SlicesGrow(e, x, world.height, world.depth);
      quads := quads + SliceOf(e, x, world.height, world.depth);
      x := x + 1;
    }
  }

  /** The body of the x loop: the y loop over slice x. */
  method EmitSlice(world: VoxelWorld, atlas: TileKey -> AtlasUV, x: int, mesh0: MeshArrays, index0: int,
                   ghost e: Emission, ghost quads0: seq<Quad>)
    returns (mesh: MeshArrays, index: int)
    requires world.Valid()
    requires Emitted(mesh0, index0, quads0, atlas)
    requires CellsAgree(world, e)
    ensures Emitted(mesh, index, quads0 + SliceOf(e, x, world.height, world.depth), atlas)
  {
    mesh, index := mesh0, index0;
    ghost var quads := quads0;
    var y := 0;
    while y < world.height
      invariant 0 <= y <= world.height
      invariant quads == quads0 + SliceOf(e, x, y, world.depth)
      invariant Emitted(mesh, index, quads, atlas)
    {
      mesh, index := EmitColumn(world, atlas, x, y, mesh, index, e, quads);
      SliceGrows(e, x, y, world.depth, quads0);
      quads := quads + ColumnOf(e, x, y, world.depth);
      y := y + 1;
    }
  }

  /** Emitting slice x after the first x slices gives the first x + 1 slices. */
  lemma SlicesGrow(e: Emission, x: int, height: int, depth: int)
    requires 0 <= x
    ensures SlicesOf(e, x + 1, height, depth) == SlicesOf(e, x, height, depth) + SliceOf(e, x, height, depth)
  {
    assert SliceParts(e, height, depth)(x) == SliceOf(e, x, height, depth);
  }

  /** Emitting cell z after column (x, y)'s first z cells gives its first z + 1 cells. */
  lemma ColumnGrows(e: Emission, x: int, y: int, z: int, quads0: seq<Quad>)
    requires 0 <= z
    ensures quads0 + ColumnOf(e, x, y, z + 1) == quads0 + ColumnOf(e, x, y, z) + At(e, Cell(x, y, z))
  {
    assert CellParts(e, x, y)(z) == At(e, Cell(x, y, z));
  }

  /** Emitting column y after slice x's first y columns gives its first y + 1 columns. */
  lemma SliceGrows(e: Emission, x: int, y: int, depth: int, quads0: seq<Quad>)
    requires 0 <= y
    ensures quads0 + SliceOf(e, x, y + 1, depth) == quads0 + SliceOf(e, x, y, depth) + ColumnOf(e, x, y, depth)
  {
    assert ColumnParts(e, x, depth)(y) == ColumnOf(e, x, y, depth);
  }

  /** The body of the y loop: the z loop over column (x, y). */
  method EmitColumn(world: VoxelWorld, atlas: TileKey -> AtlasUV, x: int, y: int, mesh0: MeshArrays, index0: int,
                    ghost e: Emission, ghost quads0: seq<Quad>)
    returns (mesh: MeshArrays, index: int)
    requires world.Valid() && CellsAgree(world, e)
    requires Emitted(mesh0, index0, quads0, atlas)
    ensures Emitted(mesh, index, quads0 + ColumnOf(e, x, y, world.depth), atlas)
  {
    mesh, index := mesh0, index0;
    ghost var quads := quads0;
    var z := 0;
    while z < world.depth
      invariant 0 <= z <= world.depth
      invariant quads == quads0 + ColumnOf(e, x, y, z)
      invariant Emitted(mesh, index, quads, atlas)
    {
      mesh, index := EmitCell(world, atlas, Cell(x, y, z), mesh, index, e, quads);
      ColumnGrows(e, x, y, z, quads0);
      quads := quads + At(e, Cell(x, y, z));
      z := z + 1;
    }
  }

  /** The body of the z loop: the face loop over one cell, when it holds a solid block with faces. */
  method EmitCell(world: VoxelWorld, atlas: TileKey -> AtlasUV, cell: Cell, mesh0: MeshArrays, index0: int,
                  ghost e: Emission, ghost quads0: seq<Quad>)
    returns (mesh: MeshArrays, index: int)
    requires world.Valid() && CellsAgree(world, e)
    requires Emitted(mesh0, index0, quads0, atlas)
    ensures Emitted(mesh, index, quads0 + At(e, cell), atlas)
  {
    assert At(e, cell) == CellQuads(world, cell);
    var blockId := world.Get(cell.x, cell.y, cell.z);
    var faces := SolidFaces(blockId);
    if faces.None? {
      assert quads0 + At(e, cell) == quads0;
      return mesh0, index0;
    }
    mesh, index := EmitFaces(world, atlas, cell, faces.value, mesh0, index0, quads0);
  }

  /** The face loop over one cell. */
  method EmitFaces(world: VoxelWorld, atlas: TileKey -> AtlasUV, cell: Cell, tiles: FaceTiles, mesh0: MeshArrays,
                   index0: int, ghost quads0: seq<Quad>)
    returns (mesh: MeshArrays, index: int)
    requires world.Valid()
    requires Emitted(mesh0, index0, quads0, atlas)
    ensures Emitted(mesh, index, quads0 + FaceQuads(world, cell, tiles, |FaceTable|), atlas)
  {
    mesh, index := mesh0, index0;
    assert quads0 + FaceQuads(world, cell, tiles, 0) == quads0;
    var k := 0;
    while k < |FaceTable|
      invariant 0 <= k <= |FaceTable|
      invariant Emitted(mesh, index, quads0 + FaceQuads(world, cell, tiles, k), atlas)
    {
      mesh, index := EmitFace(world, atlas, cell, tiles, k, mesh, index, quads0 + FaceQuads(world, cell, tiles, k));
      FacesGrow(world, cell, tiles, k, quads0);
      k := k + 1;
    }
  }

  /** Emitting face k after the first k faces of a cell gives its first k + 1 faces. */
  lemma FacesGrow(world: VoxelWorld, cell: Cell, tiles: FaceTiles, k: nat, quads0: seq<Quad>)
    requires world.Valid() && k < |FaceTable|
    ensures quads0 + FaceQuads(world, cell, tiles, k + 1) ==
      quads0 + FaceQuads(world, cell, tiles, k) + FaceQuad(world, cell, tiles, k)
  {
  }

  /** The body of the face loop: one quad when the neighbour across face `k` is air. */
  method EmitFace(world: VoxelWorld, atlas: TileKey -> AtlasUV, cell: Cell, tiles: FaceTiles, k: nat,
                  mesh0: MeshArrays, index0: int, ghost quads0: seq<Quad>)
    returns (mesh: MeshArrays, index: int)
    requires world.Valid() && k < |FaceTable|
    requires Emitted(mesh0, index0, quads0, atlas)
    ensures Emitted(mesh, index, quads0 + FaceQuad(world, cell, tiles, k), atlas)
  {
    mesh, index := mesh0, index0;
    var face := FaceTable[k];
    var n := Neighbour(cell, face);
    var neighbour := world.Get(n.x, n.y, n.z);
    if neighbour == 0 {
      var q := Quad(cell, face, TileFor(tiles, face.name));
      MeshOfAppend(quads0, q, atlas);
      mesh := MeshArrays(mesh.positions + QuadPositions(q), mesh.normals + QuadNormals(q),
                         mesh.uvs + QuadUVs(atlas(q.tile)), mesh.indices + QuadIndices(index));
      index := index + 4;
    } else {
      assert quads0 + FaceQuad(world, cell, tiles, k) == quads0;
    }
  }

  // Layout of the arrays

  /** Each quad contributes 12 position values, 12 normal values, 8 uv values and 6 indices. */
  lemma {:induction false} MeshSizes(qs: seq<Quad>, atlas: TileKey -> AtlasUV)
    decreases |qs|
    ensures |Positions(qs)| == 12 * |qs| && |Normals(qs)| == 12 * |qs|
    ensures |UVs(qs, atlas)| == 8 * |qs| && |Indices(qs)| == 6 * |qs|
  {
    if qs != [] {
      MeshSizes(qs[..|qs| - 1], atlas);
    }
  }

  lemma PrefixSlice<T>(a: seq<T>, b: seq<T>, i: int, j: int)
    requires 0 <= i <= j <= |a|
    ensures (a + b)[i..j] == a[i..j]
  {
  }

  lemma SuffixSlice<T>(a: seq<T>, b: seq<T>)
    ensures (a + b)[|a|..|a| + |b|] == b
  {
  }

  /** Quad k owns position values 12k .. 12k + 12. */
  lemma {:induction false} PositionsLayout(qs: seq<Quad>, k: nat)
    requires k < |qs|
    decreases |qs|
    ensures 12 * k + 12 <= |Positions(qs)| && Positions(qs)[12 * k .. 12 * k + 12] == QuadPositions(qs[k])
  {
    var front := qs[..|qs| - 1];
    var last := QuadPositions(qs[|qs| - 1]);
    MeshSizes(front, (t: TileKey) => AtlasUV(0.0, 0.0, 0.0, 0.0));
    assert Positions(qs) == Positions(front) + last;
    if k < |front| {
      PositionsLayout(front, k);
      assert front[k] == qs[k];
      PrefixSlice(Positions(front), last, 12 * k, 12 * k + 12);
    } else {
      assert k == |front| && QuadPositions(qs[k]) == last;
      SuffixSlice(Positions(front), last);
    }
  }

  /** Quad k owns normal values 12k .. 12k + 12. */
  lemma {:induction false} NormalsLayout(qs: seq<Quad>, k: nat)
    requires k < |qs|
    decreases |qs|
    ensures 12 * k + 12 <= |Normals(qs)| && Normals(qs)[12 * k .. 12 * k + 12] == QuadNormals(qs[k])
  {
    var front := qs[..|qs| - 1];
    var last := QuadNormals(qs[|qs| - 1]);
    MeshSizes(front, (t: TileKey) => AtlasUV(0.0, 0.0, 0.0, 0.0));
    assert Normals(qs) == Normals(front) + last;
    if k < |front| {
      NormalsLayout(front, k);
      assert front[k] == qs[k];
      PrefixSlice(Normals(front), last, 12 * k, 12 * k + 12);
    } else {
      assert k == |front| && QuadNormals(qs[k]) == last;
      SuffixSlice(Normals(front), last);
    }
  }

  /** Quad k owns uv values 8k .. 8k + 8, the atlas rectangle of its tile. */
  lemma {:induction false} UVsLayout(qs: seq<Quad>, atlas: TileKey -> AtlasUV, k: nat)
    requires k < |qs|
    decreases |qs|
    ensures 8 * k + 8 <= |UVs(qs, atlas)| && UVs(qs, atlas)[8 * k .. 8 * k + 8] == QuadUVs(atlas(qs[k].tile))
  {
    var front := qs[..|qs| - 1];
    var last := QuadUVs(atlas(qs[|qs| - 1].tile));
    MeshSizes(front, atlas);
    assert UVs(qs, atlas) == UVs(front, atlas) + last;
    if k < |front| {
      UVsLayout(front, atlas, k);
      assert front[k] == qs[k];
      PrefixSlice(UVs(front, atlas), last, 8 * k, 8 * k + 8);
    } else {
      assert k == |front| && QuadUVs(atlas(qs[k].tile)) == last;
      SuffixSlice(UVs(front, atlas), last);
    }
  }

  /** Quad k owns indices 6k .. 6k + 6, which name its vertices 4k .. 4k + 3. */
  lemma {:induction false} IndicesLayout(qs: seq<Quad>, k: nat)
    requires k < |qs|
    decreases |qs|
    ensures 6 * k + 6 <= |Indices(qs)| && Indices(qs)[6 * k .. 6 * k + 6] == QuadIndices(4 * k)
  {
    var front := qs[..|qs| - 1];
    var last := QuadIndices(4 * (|qs| - 1));
    MeshSizes(front, (t: TileKey) => AtlasUV(0.0, 0.0, 0.0, 0.0));
    assert Indices(qs) == Indices(front) + last;
    if k < |front| {
      IndicesLayout(front, k);
      assert front[k] == qs[k];
      PrefixSlice(Indices(front), last, 6 * k, 6 * k + 6);
    } else {
      assert k == |front| && QuadIndices(4 * k) == last;
      SuffixSlice(Indices(front), last);
    }
  }

  /**
   * Index i belongs to quad i / 6 and names one of that quad's four vertices,
   * so every index is below the vertex count 4 * |qs|.
   */
  lemma IndicesWithinQuad(qs: seq<Quad>, i: int)
    requires 0 <= i < |Indices(qs)|
    ensures 4 * (i / 6) <= Indices(qs)[i] < 4 * (i / 6) + 4
    ensures 0 <= Indices(qs)[i] < 4 * |qs|
  {
    MeshSizes(qs, (t: TileKey) => AtlasUV(0.0, 0.0, 0.0, 0.0));
    var k := i / 6;
    assert 6 * k <= i < 6 * k + 6;
    IndicesLayout(qs, k);
    assert Indices(qs)[i] == QuadIndices(4 * k)[i - 6 * k];
  }

  /** Each quad's normals repeat its face's direction and its positions are the template plus the cell. */
  lemma QuadVertices(q: Quad, i: nat)
    requires i < 4 && |q.face.corners| == 4
    ensures QuadPositions(q)[3 * i .. 3 * i + 3] ==
      [q.face.corners[i].x + q.cell.x, q.face.corners[i].y + q.cell.y, q.face.corners[i].z + q.cell.z]
    ensures QuadNormals(q)[3 * i .. 3 * i + 3] == [q.face.dir.x, q.face.dir.y, q.face.dir.z]
  {
  }

  // The culling rule

  /**
   * The quad the mesher owes for a face: the cell holds a solid block with
   * faces, the face is in the table, the neighbour across it reads 0 (as every
   * cell outside the grid does) and the tile is the block's tile for that face.
   */
  predicate Exposed(world: VoxelWorld, q: Quad)
    requires world.Valid()
    reads world, world.data
  {
    var faces := SolidFaces(world.Get(q.cell.x, q.cell.y, q.cell.z));
    var n := Neighbour(q.cell, q.face);
    && faces.Some?
    && q.face in FaceTable
    && world.Get(n.x, n.y, n.z) == 0
    && q.tile == TileFor(faces.value, q.face.name)
  }

  lemma {:induction false} FaceQuadsMembers(world: VoxelWorld, c: Cell, tiles: FaceTiles, k: nat, q: Quad)
    requires world.Valid() && k <= |FaceTable|
    decreases k
    ensures q in FaceQuads(world, c, tiles, k) <==>
      var n := Neighbour(c, q.face);
      q.cell == c && q.face in FaceTable[..k] && world.Get(n.x, n.y, n.z) == 0 && q.tile == TileFor(tiles, q.face.name)
  {
    if k > 0 {
      FaceQuadsMembers(world, c, tiles, k - 1, q);
      assert FaceTable[..k] == FaceTable[..k - 1] + [FaceTable[k - 1]];
    }
  }

  /** A cell's quads are exactly the exposed quads at that cell. */
  lemma CellQuadsMembers(world: VoxelWorld, c: Cell, q: Quad)
    requires world.Valid()
    ensures q in CellQuads(world, c) <==> q.cell == c && Exposed(world, q)
  {
    var faces := SolidFaces(world.Get(c.x, c.y, c.z));
    if faces.Some? {
      FaceQuadsMembers(world, c, faces.value, |FaceTable|, q);
      assert FaceTable[..|FaceTable|] == FaceTable;
    }
  }


  /** Every quad an emission assigns to a cell sits at that cell. */
  ghost predicate Tagged(e: Emission)
  {
    forall c: Cell, q: Quad :: q in At(e, c) ==> q.cell == c
  }

  /**
   * Membership in the parts 0 .. n - 1 when only part k can hold q, and does
   * exactly when `inPart`.
   */
  lemma {:induction false} ConcatMembers(parts: int -> seq<Quad>, n: int, q: Quad, k: int, inPart: bool)
    requires forall i :: 0 <= i < n ==> (q in parts(i) <==> i == k && inPart)
    decreases n
    ensures q in Concat(parts, n) <==> 0 <= k < n && inPart
  {
    if n > 0 {
      ConcatMembers(parts, n - 1, q, k, inPart);
      assert q in parts(n - 1) <==> n - 1 == k && inPart;
    }
  }

  lemma ColumnMembers(e: Emission, x: int, y: int, zEnd: int, q: Quad)
    requires Tagged(e)
    ensures q in ColumnOf(e, x, y, zEnd) <==>
      q.cell.x == x && q.cell.y == y && 0 <= q.cell.z < zEnd && q in At(e, q.cell)
  {
    var inPart := q.cell.x == x && q.cell.y == y && q in At(e, q.cell);
    forall i | 0 <= i < zEnd
      ensures q in CellParts(e, x, y)(i) <==> i == q.cell.z && inPart
    {
      assert CellParts(e, x, y)(i) == At(e, Cell(x, y, i));
      assert q.cell == Cell(q.cell.x, q.cell.y, q.cell.z);
    }
    ConcatMembers(CellParts(e, x, y), zEnd, q, q.cell.z, inPart);
  }

  lemma SliceMembers(e: Emission, x: int, yEnd: int, depth: int, q: Quad)
    requires Tagged(e)
    ensures q in SliceOf(e, x, yEnd, depth) <==>
      q.cell.x == x && 0 <= q.cell.y < yEnd && 0 <= q.cell.z < depth && q in At(e, q.cell)
  {
    var inPart := q.cell.x == x && 0 <= q.cell.z < depth && q in At(e, q.cell);
    forall i | 0 <= i < yEnd
      ensures q in ColumnParts(e, x, depth)(i) <==> i == q.cell.y && inPart
    {
      assert ColumnParts(e, x, depth)(i) == ColumnOf(e, x, i, depth);
      ColumnMembers(e, x, i, depth, q);
    }
    ConcatMembers(ColumnParts(e, x, depth), yEnd, q, q.cell.y, inPart);
  }

  /** The loops visit every cell of the box once: a quad is listed exactly when its in-range cell emits it. */
  lemma SlicesMembers(e: Emission, xEnd: int, height: int, depth: int, q: Quad)
    requires Tagged(e)
    ensures q in SlicesOf(e, xEnd, height, depth) <==>
      0 <= q.cell.x < xEnd && 0 <= q.cell.y < height && 0 <= q.cell.z < depth && q in At(e, q.cell)
  {
    var inPart := 0 <= q.cell.y < height && 0 <= q.cell.z < depth && q in At(e, q.cell);
    forall i | 0 <= i < xEnd
      ensures q in SliceParts(e, height, depth)(i) <==> i == q.cell.x && inPart
    {
      assert SliceParts(e, height, depth)(i) == SliceOf(e, i, height, depth);
      SliceMembers(e, i, height, depth, q);
    }
    ConcatMembers(SliceParts(e, height, depth), xEnd, q, q.cell.x, inPart);
  }

  lemma WorldTagged(world: VoxelWorld)
    requires world.Valid()
    ensures Tagged(Emissions(world))
  {
    forall c: Cell, q: Quad | q in At(Emissions(world), c)
      ensures q.cell == c
    {
      EmissionsAt(world, c);
      CellQuadsMembers(world, c, q);
    }
  }

  /**
   * The mesh holds a quad exactly when the culling rule asks for it: cells
   * outside the grid read 0 and so never emit, while faces on the border do.
   */
  lemma WorldQuadsMembers(world: VoxelWorld, q: Quad)
    requires world.Valid()
    ensures q in WorldQuads(world) <==> Exposed(world, q)
  {
    WorldTagged(world);
    SlicesMembers(Emissions(world), world.width, world.height, world.depth, q);
    EmissionsAt(world, q.cell);
    CellQuadsMembers(world, q.cell, q);
  }

  /** A cell whose id is not a solid block contributes nothing. */
  lemma NonSolidCellEmitsNothing(world: VoxelWorld, c: Cell)
    requires world.Valid() && !IsSolid(world.Get(c.x, c.y, c.z))
    ensures CellQuads(world, c) == []
    ensures forall q: Quad :: q.cell == c ==> q !in WorldQuads(world)
  {
    forall q: Quad | q.cell == c
      ensures q !in WorldQuads(world)
    {
      WorldQuadsMembers(world, q);
    }
  }

  // Counting quads

  /** With every neighbour of c across the first k faces reading 0, all k faces are emitted. */
  lemma {:induction false} AllFacesOpen(world: VoxelWorld, c: Cell, tiles: FaceTiles, k: nat)
    requires world.Valid() && k <= |FaceTable|
    requires forall i :: 0 <= i < k ==> AirAcross(world, c, i)
    decreases k
    ensures |FaceQuads(world, c, tiles, k)| == k
  {
    if k > 0 {
      AllFacesOpen(world, c, tiles, k - 1);
    }
  }

  /** With exactly face j among the first k blocked, k - 1 faces are emitted. */
  lemma {:induction false} OneFaceBlocked(world: VoxelWorld, c: Cell, tiles: FaceTiles, k: nat, j: nat)
    requires world.Valid() && j < k <= |FaceTable|
    requires !AirAcross(world, c, j)
    requires forall i :: 0 <= i < k && i != j ==> AirAcross(world, c, i)
    decreases k
    ensures |FaceQuads(world, c, tiles, k)| == k - 1
  {
    if k - 1 == j {
      AllFacesOpen(world, c, tiles, k - 1);
    } else {
      OneFaceBlocked(world, c, tiles, k - 1, j);
    }
  }


  /** Every cell of the box other than a and b emits nothing. */
  ghost predicate Silent(e: Emission, a: Cell, b: Cell, width: int, height: int, depth: int)
  {
    forall d: Cell {:trigger At(e, d)} :: 0 <= d.x < width && 0 <= d.y < height && 0 <= d.z < depth && d != a && d != b ==> At(e, d) == []
  }

  /** The quads cell c adds to column (x, y) up to zEnd. */
  function ColumnShare(e: Emission, c: Cell, x: int, y: int, zEnd: int): nat
  {
    if c.x == x && c.y == y && 0 <= c.z < zEnd then |At(e, c)| else 0
  }

  /** The quads cell c adds to slice x up to yEnd. */
  function SliceShare(e: Emission, c: Cell, x: int, yEnd: int, depth: int): nat
  {
    if c.x == x && 0 <= c.y < yEnd && 0 <= c.z < depth then |At(e, c)| else 0
  }

  /** The quads cell c adds to the slices below xEnd. */
  function SlicesShare(e: Emission, c: Cell, xEnd: int, height: int, depth: int): nat
  {
    if 0 <= c.x < xEnd && 0 <= c.y < height && 0 <= c.z < depth then |At(e, c)| else 0
  }

  lemma {:induction false} ColumnOfTwo(e: Emission, a: Cell, b: Cell, width: int, height: int, depth: int,
                                       x: int, y: int, zEnd: int)
    requires Silent(e, a, b, width, height, depth) && a != b
    requires 0 <= x < width && 0 <= y < height && zEnd <= depth
    decreases zEnd
    ensures |ColumnOf(e, x, y, zEnd)| == ColumnShare(e, a, x, y, zEnd) + ColumnShare(e, b, x, y, zEnd)
  {
    if zEnd > 0 {
      ColumnOfTwo(e, a, b, width, height, depth, x, y, zEnd - 1);
      var c := Cell(x, y, zEnd - 1);
      if c != a && c != b {
        assert At(e, c) == [];
      }
    }
  }

  lemma {:induction false} SliceOfTwo(e: Emission, a: Cell, b: Cell, width: int, height: int, depth: int,
                                      x: int, yEnd: int)
    requires Silent(e, a, b, width, height, depth) && a != b
    requires 0 <= x < width && yEnd <= height
    decreases yEnd
    ensures |SliceOf(e, x, yEnd, depth)| == SliceShare(e, a, x, yEnd, depth) + SliceShare(e, b, x, yEnd, depth)
  {
    if yEnd > 0 {
      SliceOfTwo(e, a, b, width, height, depth, x, yEnd - 1);
      ColumnOfTwo(e, a, b, width, height, depth, x, yEnd - 1, depth);
    }
  }

  /** When only the cells a and b of the box emit, the loops list their quads and no others. */
  lemma {:induction false} SlicesOfTwo(e: Emission, a: Cell, b: Cell, height: int, depth: int, width: int, xEnd: int)
    requires Silent(e, a, b, width, height, depth) && a != b
    requires xEnd <= width
    decreases xEnd
    ensures |SlicesOf(e, xEnd, height, depth)| ==
      SlicesShare(e, a, xEnd, height, depth) + SlicesShare(e, b, xEnd, height, depth)
  {
    if xEnd > 0 {
      SlicesOfTwo(e, a, b, height, depth, width, xEnd - 1);
      SliceOfTwo(e, a, b, width, height, depth, xEnd - 1, height);
    }
  }

  /** When only the cells a and b can emit, the mesh holds their quads and no others. */
  lemma WorldOfTwo(world: VoxelWorld, a: Cell, b: Cell)
    requires world.Valid() && a != b
    requires forall d: Cell {:trigger world.Get(d.x, d.y, d.z)} :: world.InBounds(d.x, d.y, d.z) && d != a && d != b ==> world.Get(d.x, d.y, d.z) == 0
    ensures |WorldQuads(world)| ==
      (if world.InBounds(a.x, a.y, a.z) then |CellQuads(world, a)| else 0) +
      (if world.InBounds(b.x, b.y, b.z) then |CellQuads(world, b)| else 0)
  {
    var e := Emissions(world);
    forall d: Cell {:trigger At(e, d)} | 0 <= d.x < world.width && 0 <= d.y < world.height && 0 <= d.z < world.depth && d != a && d != b
      ensures At(e, d) == []
    {
      EmissionsAt(world, d);
      assert world.Get(d.x, d.y, d.z) == 0;
    }
    SlicesOfTwo(e, a, b, world.height, world.depth, world.width, world.width);
    EmissionsAt(world, a);
    EmissionsAt(world, b);
  }

  /** A cell whose six neighbours read 0 emits all six faces when solid. */
  lemma SurroundedByAir(world: VoxelWorld, c: Cell)
    requires world.Valid() && IsSolid(world.Get(c.x, c.y, c.z))
    requires forall i :: 0 <= i < |FaceTable| ==> AirAcross(world, c, i)
    ensures |CellQuads(world, c)| == 6
  {
    AllFacesOpen(world, c, SolidFaces(world.Get(c.x, c.y, c.z)).value, |FaceTable|);
  }


  /** The six neighbours of a block that is alone in the grid read 0. */
  lemma AloneNeighbours(world: VoxelWorld, c: Cell)
    requires world.Valid()
    requires forall d: Cell {:trigger world.Get(d.x, d.y, d.z)} :: d != c ==> world.Get(d.x, d.y, d.z) == 0
    ensures forall i :: 0 <= i < |FaceTable| ==> AirAcross(world, c, i)
  {
    forall i | 0 <= i < |FaceTable|
      ensures AirAcross(world, c, i)
    {
      FaceDirNonZero(i);
      NeighboursApart(c, FaceTable[i], FaceDirection(PX, Cell(0, 0, 0), []));
    }
  }

  /** A single solid block in an otherwise empty grid gives 6 quads. */
  lemma IsolatedBlockQuads(world: VoxelWorld, c: Cell)
    requires world.Valid() && world.InBounds(c.x, c.y, c.z) && IsSolid(world.Get(c.x, c.y, c.z))
    requires forall d: Cell {:trigger world.Get(d.x, d.y, d.z)} :: d != c ==> world.Get(d.x, d.y, d.z) == 0
    ensures |WorldQuads(world)| == 6
  {
    WorldOfTwo(world, c, Cell(world.width, 0, 0));
    AloneNeighbours(world, c);
    SurroundedByAir(world, c);
  }

  /**
   * A single solid block in an otherwise empty grid gives 6 quads: 24
   * vertices, 72 position values and 36 indices.
   */
  lemma IsolatedBlock(world: VoxelWorld, c: Cell, atlas: TileKey -> AtlasUV)
    requires world.Valid() && world.InBounds(c.x, c.y, c.z) && IsSolid(world.Get(c.x, c.y, c.z))
    requires forall d: Cell {:trigger world.Get(d.x, d.y, d.z)} :: d != c ==> world.Get(d.x, d.y, d.z) == 0
    ensures |WorldQuads(world)| == 6
    ensures var m := MeshOf(WorldQuads(world), atlas);
      |m.positions| == 72 && |m.normals| == 72 && |m.uvs| == 48 && |m.indices| == 36
  {
    IsolatedBlockQuads(world, c);
    MeshSizes(WorldQuads(world), atlas);
  }

  /** Moving one cell by two different offsets gives two different cells, neither the cell itself when non-zero. */
  lemma NeighboursApart(c: Cell, f: FaceDirection, g: FaceDirection)
    requires f.dir != g.dir && f.dir != Cell(0, 0, 0)
    ensures Neighbour(c, f) != Neighbour(c, g) && Neighbour(c, f) != c
  {
  }

  /** The neighbours of c across every face but j avoid both c and its neighbour across j. */
  lemma {:induction false} OtherNeighbours(world: VoxelWorld, c: Cell, j: nat)
    requires world.Valid() && j < |FaceTable|
    requires forall e: Cell {:trigger world.Get(e.x, e.y, e.z)} :: e != c && e != Neighbour(c, FaceTable[j]) ==> world.Get(e.x, e.y, e.z) == 0
    ensures forall i :: 0 <= i < |FaceTable| && i != j ==>
      AirAcross(world, c, i)
  {
    forall i: nat | i < |FaceTable| && i != j
      ensures AirAcross(world, c, i)
    {
      OtherNeighbour(world, c, j, i);
    }
  }

  /** The neighbour of c across face i, for i != j, reads 0. */
  lemma {:induction false} OtherNeighbour(world: VoxelWorld, c: Cell, j: nat, i: nat)
    requires world.Valid() && j < |FaceTable| && i < |FaceTable| && i != j
    requires forall e: Cell {:trigger world.Get(e.x, e.y, e.z)} :: e != c && e != Neighbour(c, FaceTable[j]) ==> world.Get(e.x, e.y, e.z) == 0
    ensures AirAcross(world, c, i)
  {
    var f, g := FaceTable[i], FaceTable[j];
    FaceDirsApart(i, j);
    NeighboursApart(c, f, g);
    var n := Neighbour(c, f);
    assert n != c && n != Neighbour(c, g);
  }

  /**
   * Two solid blocks sharing face j of the first (face o of the second, the
   * opposite direction) in an otherwise empty grid give 10 quads: the shared
   * face is culled on both sides.
   */
  lemma AdjacentBlocks(world: VoxelWorld, c: Cell, j: nat, o: nat, atlas: TileKey -> AtlasUV)
    requires world.Valid() && j < |FaceTable| && o < |FaceTable|
    requires FaceTable[o].dir == CellNeg(FaceTable[j].dir)
    requires world.InBounds(c.x, c.y, c.z) && IsSolid(world.Get(c.x, c.y, c.z))
    requires var d := Neighbour(c, FaceTable[j]); world.InBounds(d.x, d.y, d.z) && IsSolid(world.Get(d.x, d.y, d.z))
    requires forall e: Cell {:trigger world.Get(e.x, e.y, e.z)} :: e != c && e != Neighbour(c, FaceTable[j]) ==> world.Get(e.x, e.y, e.z) == 0
    ensures |WorldQuads(world)| == 10
    ensures var m := MeshOf(WorldQuads(world), atlas);
      |m.positions| == 120 && |m.normals| == 120 && |m.uvs| == 80 && |m.indices| == 60
  {
    AdjacentBlocksQuads(world, c, j, o);
    MeshSizes(WorldQuads(world), atlas);
  }

  /** A solid block whose neighbours read 0 across every face but j, where a block sits, emits five quads. */
  lemma FiveFaces(world: VoxelWorld, c: Cell, j: nat)
    requires world.Valid() && j < |FaceTable| && IsSolid(world.Get(c.x, c.y, c.z))
    requires !AirAcross(world, c, j)
    requires forall i :: 0 <= i < |FaceTable| && i != j ==>
      AirAcross(world, c, i)
    ensures |CellQuads(world, c)| == 5
  {
    OneFaceBlocked(world, c, SolidFaces(world.Get(c.x, c.y, c.z)).value, |FaceTable|, j);
  }

  /** Stepping across face j and back across the opposite face o returns to the cell. */
  lemma StepBack(c: Cell, j: nat, o: nat)
    requires j < |FaceTable| && o < |FaceTable|
    requires FaceTable[o].dir == CellNeg(FaceTable[j].dir)
    ensures Neighbour(Neighbour(c, FaceTable[j]), FaceTable[o]) == c
    ensures Neighbour(c, FaceTable[j]) != c
  {
    FaceDirNonZero(j);
    NeighboursApart(c, FaceTable[j], FaceDirection(PX, Cell(0, 0, 0), []));
  }

  /** Two face-adjacent solid blocks in an otherwise empty grid give 10 quads. */
  lemma AdjacentBlocksQuads(world: VoxelWorld, c: Cell, j: nat, o: nat)
    requires world.Valid() && j < |FaceTable| && o < |FaceTable|
    requires FaceTable[o].dir == CellNeg(FaceTable[j].dir)
    requires world.InBounds(c.x, c.y, c.z) && IsSolid(world.Get(c.x, c.y, c.z))
    requires var d := Neighbour(c, FaceTable[j]); world.InBounds(d.x, d.y, d.z) && IsSolid(world.Get(d.x, d.y, d.z))
    requires forall e: Cell {:trigger world.Get(e.x, e.y, e.z)} :: e != c && e != Neighbour(c, FaceTable[j]) ==> world.Get(e.x, e.y, e.z) == 0
    ensures |WorldQuads(world)| == 10
  {
    var d := Neighbour(c, FaceTable[j]);
    StepBack(c, j, o);
    OtherNeighbours(world, c, j);
    OtherNeighbours(world, d, o);
    FiveFaces(world, c, j);
    FiveFaces(world, d, o);
    WorldOfTwo(world, c, d);
  }
}
