# Voxel sandbox core in Dafny

This project models the simulation core of a browser voxel sandbox. The core covers:

- the 64 x 32 x 64 block grid and its flat terrain;
- the block catalog and the six-face table;
- box overlap and the player's collision with the grid;
- the face-culled mesher;
- the player's per-frame movement state machine;
- keyboard and mouse edge detection;
- the block-break particle pool;
- the block-to-sound lookup;
- the place, break and hotbar rules of the game loop.

Each TypeScript file of the core is one Dafny module:

| Dafny module | source file |
|---|---|
| `Config` | `src/config.ts` |
| `FaceDirections` | `src/world/faceDirections.ts` |
| `Blocks` | `src/world/blocks.ts` |
| `VoxelGrid` | `src/world/VoxelWorld.ts` |
| `Terrain` | `src/world/terrain.ts` |
| `Aabb` | `src/physics/aabb.ts` |
| `Collision` | `src/physics/collision.ts` |
| `Mesher` | `src/world/mesher.ts` |
| `Player` | `src/player/PlayerController.ts` |
| `Inputs` | `src/input/Input.ts` |
| `Particles` | `src/effects/particles.ts` |
| `BlockSounds` | `src/audio/blockSounds.ts` |
| `Game` | `src/main.ts` |

Two helper modules support them:

- `Wrappers` holds `Option`.
- `Geometry` holds `Vec3`, a value stand-in for `THREE.Vector3` over reals, and `Cell`, an integer voxel coordinate.

Where the source changes state in place, the model is imperative:

- The grid is a class over a three-dimensional byte array (`array3`). `Set` writes it, and `SurfaceY` is the downward loop. `Index` is the source's flat layout `x + z*width + y*width*depth`.
- The terrain generator, `collidesAt`, `collideAxis` and the mesher are nested `while` loops. Each is proved against a functional specification: `IsFlat`, `SolidHit`, `AxisResolved` and `MeshOf(WorldQuads(world))`.
- `Input`, `PlayerController` and the particle pool are classes whose methods update their fields.
- `start()` in `src/main.ts` becomes the class `Game.Session`. It keeps the selection, the inventory panel flag and the inventory beside the world, the player, the particles and the input. Its invariant `Valid()` says:
  - the selection is a hotbar block;
  - every hotbar block has an inventory entry;
  - the player stays inside the horizontal world clamp.

Some inputs of the source become parameters:

- Randomness: `Math.random()` is the parameter `rnd: nat -> real`, whose n-th value is the n-th number drawn in one call.
- Clock: `performance.now()` at the Space and W presses is `spaceNow` and `forwardNow`, and `clock.getDelta()` is `clockDelta`.
- Trigonometry: the yaw's horizontal unit vector is the parameter `forward`, and 1/sqrt(2) is `invSqrt2`.
- Raycasting: the `pickBlock()` result is the parameter `picked`.

## Model

| member | source | states |
|---|---|---|
| Config.ConstantsAreConsistent | src/config.ts:1-29 | world is 64 x 32 x 64; crouch height below standing height; each eye height below its body height; third-person minimum distance below the distance; the player is narrower than one block |
| FaceDirections.FaceTableShape | src/world/faceDirections.ts:9-16 | six faces named px, nx, py, ny, pz, nz in that order; each pair's directions are opposite |
| FaceDirections.FaceTableWellFormed | src/world/faceDirections.ts:10-15 | every face has a unit axis direction and four distinct corners in {0,1}^3 lying on the face plane; both triangles (0,1,2) and (0,2,3) wind outward along the direction |
| FaceDirections.FaceNamesDistinct | src/world/faceDirections.ts:9-16 | no face name occurs twice |
| FaceDirections.FaceDirsDistinct | src/world/faceDirections.ts:10-15 | the six directions are pairwise different |
| FaceDirections.FaceDirNonZero | src/world/faceDirections.ts:10-15 | no direction is the zero vector |
| FaceDirections.FaceDirsApart | src/world/faceDirections.ts:10-15 | two different entries have different, non-zero directions |
| Blocks.IsSolidAgreesWithCatalog | src/world/blocks.ts:103-117 | the solidity test used everywhere holds exactly when the catalog has an entry and that entry is solid |
| Blocks.TileImagePath | src/world/blocks.ts:82-92 | every tile key has an image path ending in `.png` |
| Blocks.AirIsEmpty | src/world/blocks.ts:104 | air is in the catalog, is not solid, and has no faces and no tint |
| Blocks.SolidIdsHaveFacesAndTint | src/world/blocks.ts:103-117 | exactly the ids 1..7 are solid; each has faces and a tint; exactly the ids 0..7 have entries |
| Blocks.GrassAndWoodFaces | src/world/blocks.ts:108-114 | grass is grass_top above, dirt below and grass_side on the four sides; wood is wood_top on both ends and wood_side around |
| Blocks.SelectableIdsAreSolidBlocks | src/world/blocks.ts:119 | the hotbar is [1..7] in order, so air is not selectable and every hotbar id is a solid catalog entry |
| Blocks.BlockType | src/world/blocks.ts:103-117 | definition: `BLOCK_TYPES[id]`, an entry for each of the ids 0..7 with its name, solidity, face tiles and tint, and none for any other id; `AirIsEmpty`, `SolidIdsHaveFacesAndTint` and `GrassAndWoodFaces` state its content |
| Blocks.IsSolid | src/physics/collision.ts:26-28 | definition: the `BLOCK_TYPES[id]?.solid` test of `collidesAt`, `collideAxis` and the mesher, as the ids 1..7; `IsSolidAgreesWithCatalog` proves it equal to the catalog flag with a missing entry counting as not solid |
| VoxelGrid.ToByte | src/world/VoxelWorld.ts:29 | the stored byte equals the value when it is in 0..255 and is congruent to it modulo 256 otherwise |
| VoxelGrid.VoxelWorld.constructor | src/world/VoxelWorld.ts:7-12 | a grid of the given size in which every cell reads 0 |
| VoxelGrid.VoxelWorld.InBounds | src/world/VoxelWorld.ts:18-20 | definition: `inBounds`, 0 <= x < width, 0 <= y < height and 0 <= z < depth; `Get` and `Set` are stated with it |
| VoxelGrid.VoxelWorld.Index | src/world/VoxelWorld.ts:14-16 | definition: the flat layout `x + z*width + y*width*depth`; `IndexInRange` and `IndexInjective` state its properties |
| VoxelGrid.VoxelWorld.IndexInRange | src/world/VoxelWorld.ts:14-20 | every in-bounds coordinate maps into [0, width*height*depth) |
| VoxelGrid.VoxelWorld.IndexInjective | src/world/VoxelWorld.ts:14-20 | distinct in-bounds coordinates have distinct indices |
| VoxelGrid.VoxelWorld.Get | src/world/VoxelWorld.ts:22-25 | any out-of-bounds read gives 0 |
| VoxelGrid.VoxelWorld.Set | src/world/VoxelWorld.ts:27-30 | an out-of-bounds write changes nothing; an in-bounds write reads back as the value modulo 256 and leaves every other cell unchanged |
| VoxelGrid.VoxelWorld.SurfaceFrom | src/world/VoxelWorld.ts:32-37 | the scan from row y gives one above the highest non-zero cell at or below y, or 1 when there is none |
| VoxelGrid.VoxelWorld.SurfaceOf | src/world/VoxelWorld.ts:32-37 | the result lies in [1, height]; every cell from it upward is 0; the cell below it is non-zero unless the result is 1 |
| VoxelGrid.VoxelWorld.SurfaceY | src/world/VoxelWorld.ts:32-37 | the downward loop returns `SurfaceOf` |
| Terrain.GenerateFlatWorld | src/world/terrain.ts:3-16 | afterwards every in-bounds cell holds its layer, whatever the grid held before: stone below 3, dirt at 3 and 4, grass at 5, air above. The value depends only on y |
| Terrain.FlatSurfaceFrom | src/world/terrain.ts:4-12 | in a flat world the scan from row y stops at min(y + 1, 6) |
| Terrain.FlatSurface | src/world/terrain.ts:3-16 | after generation every in-bounds column's surface is min(height, 6), and 1 outside the grid |
| Terrain.FlatSurfaceOutside | src/world/VoxelWorld.ts:32-37 | a column outside the grid reads all air, so its surface is 1 |
| Aabb.BlockAABB | src/physics/aabb.ts:5-7 | the cube of cell (x,y,z) spans (x,y,z) to (x+1,y+1,z+1) |
| Aabb.Intersects | src/physics/aabb.ts:9-18 | definition: strict overlap on all three axes; `IntersectsSymmetric`, `IntersectsIffSharedPoint` and `TouchingBoxesDoNotIntersect` state its meaning |
| Aabb.IntersectsSymmetric | src/physics/aabb.ts:9-18 | `intersects(a, b)` equals `intersects(b, a)` |
| Aabb.IntersectsIffSharedPoint | src/physics/aabb.ts:9-18 | for boxes with positive extent, `intersects` holds exactly when the open boxes share a point |
| Aabb.TouchingBoxesDoNotIntersect | src/physics/aabb.ts:11-16 | boxes that only touch on some axis do not intersect, either way round |
| Aabb.DistinctCellsDoNotIntersect | src/physics/aabb.ts:5-18 | the cubes of two distinct cells never intersect |
| Collision.PlayerAABB | src/physics/collision.ts:7-12 | feet at pos.y, height `height`, centred on pos in x and z with width 2*radius |
| Collision.InScanIff | src/physics/collision.ts:16-25 | a cell is scanned exactly when it is in bounds and the box overlaps it by EPS on every axis |
| Collision.ScannedCellsIntersect | src/physics/collision.ts:23-29 | every scanned cell's cube intersects the box |
| Collision.SolidHitIff | src/physics/collision.ts:23-29 | a hit is an in-bounds solid cell that the box overlaps by EPS on every axis |
| Collision.CollidesAt | src/physics/collision.ts:14-34 | the triple loop returns true exactly when some cell is a hit |
| Collision.NoSolidCellNoHit | src/physics/collision.ts:14-34 | in a grid without solid cells no box collides |
| Collision.CandidateBehindNext | src/physics/collision.ts:61-81 | every hit cell's stop lies at least 2 EPS behind the requested coordinate |
| Collision.Candidate | src/physics/collision.ts:75-81 | definition: the stop a hit cell imposes, below its lower face less the extent going up, above its upper face plus the extent (none on Y) going down, with EPS clearance; `CandidateBehindNext` and `LandsOnBlockTop` state its properties |
| Collision.AxisResolved | src/physics/collision.ts:47-91 | definition: the outcome `collideAxis` promises: a zero move changes nothing; no hit lands on `nextPos`; otherwise the tightest stop over the hit cells, the axis velocity zeroed and the ground flag exactly for a downward Y move. `CollideAxis` is proved to meet it; `StopWithinRequest`, `ResolvedClearOfHits` and `GroundHitIff` derive its consequences |
| Collision.CollideAxis | src/physics/collision.ts:36-92 | the result is `AxisResolved`. A zero move changes nothing. A move without a hit lands on `nextPos`. Otherwise: the moved coordinate is the tightest stop over all hit cells; that velocity component is 0; the ground flag is set exactly for a downward move on Y |
| Collision.SweepStops | src/physics/collision.ts:65-84 | after the x loop the sweep state records whether any scanned cell was a hit and the tightest stop among the hits |
| Collision.SweepSlice | src/physics/collision.ts:66-83 | the sweep state is kept over one slice of rows |
| Collision.SweepRow | src/physics/collision.ts:67-83 | the sweep state is kept over one row of cells |
| Collision.SweepCell | src/physics/collision.ts:68-81 | the sweep state is kept over one cell, taking the tighter stop on a hit |
| Collision.SweptCell | src/physics/collision.ts:74-81 | visiting a hit cell with the tighter of the old limit and its stop keeps the sweep state |
| Collision.SweptFinal | src/physics/collision.ts:84-91 | the finished sweep gives the outcome `AxisResolved` describes |
| Collision.OnlyMovedAxisChanges | src/physics/collision.ts:50-90 | only the moved coordinate of the position, and only that component of the velocity, can change |
| Collision.StopWithinRequest | src/physics/collision.ts:75-86 | the stop is never beyond the requested coordinate. On a hit it differs from the request and zeroes that velocity component. Without a hit it is the request and the velocity is unchanged |
| Collision.ResolvedClearOfHits | src/physics/collision.ts:61-87 | the resolved box intersects none of the cells that blocked the move |
| Collision.GroundHitIff | src/physics/collision.ts:86-89 | the ground callback fires exactly for a downward Y move with a hit, so an upward Y hit does not fire it |
| Collision.LandsOnBlockTop | src/physics/collision.ts:78-89 | a downward Y stop puts the feet EPS above the top of a solid cell, with no extent added |
| Mesher.BuildWorldMesh | src/world/mesher.ts:7-42 | the four arrays are `MeshOf(WorldQuads(world))`, the quads of every exposed face in loop order |
| Mesher.EmitSlices | src/world/mesher.ts:14-42 | the x loop emits the slices' quads in order |
| Mesher.EmitSlice | src/world/mesher.ts:15-41 | the y loop emits slice x's quads in order |
| Mesher.EmitColumn | src/world/mesher.ts:16-40 | the z loop emits column (x, y)'s quads in order |
| Mesher.EmitCell | src/world/mesher.ts:17-39 | one cell emits its quads, and nothing when its block is not solid or has no faces |
| Mesher.EmitFaces | src/world/mesher.ts:20-39 | the face loop emits the cell's exposed faces in table order |
| Mesher.EmitFace | src/world/mesher.ts:21-38 | one quad is appended exactly when the neighbour across the face reads 0 |
| Mesher.FaceQuad | src/world/mesher.ts:21-27 | definition: face k of a cell yields its quad, with the block's tile for that face, exactly when the neighbour across it reads 0; `FaceQuadsMembers` states it over the face loop |
| Mesher.QuadUVs | src/world/mesher.ts:31-36 | definition: a quad's eight uv values (u1,v0), (u1,v1), (u0,v1), (u0,v0); `UVsLayout` places them in the mesh |
| Mesher.EmissionsAt | src/world/mesher.ts:17-39 | what the world assigns to a cell is that cell's quads |
| Mesher.MeshOfAppend | src/world/mesher.ts:29-38 | appending a quad appends its positions, normals, uvs, and indices based at 4 times the quad count |
| Mesher.MeshSizes | src/world/mesher.ts:29-38 | each quad adds 12 position values, 12 normal values, 8 uv values and 6 indices |
| Mesher.PositionsLayout | src/world/mesher.ts:28-29 | quad k owns position values 12k to 12k+12 |
| Mesher.NormalsLayout | src/world/mesher.ts:30 | quad k owns normal values 12k to 12k+12 |
| Mesher.UVsLayout | src/world/mesher.ts:27-36 | quad k owns uv values 8k to 8k+8: its tile's (u1,v0), (u1,v1), (u0,v1), (u0,v0) |
| Mesher.IndicesLayout | src/world/mesher.ts:37-38 | quad k owns indices 6k to 6k+6, the triangles (4k, 4k+1, 4k+2) and (4k, 4k+2, 4k+3) |
| Mesher.IndicesWithinQuad | src/world/mesher.ts:37-38 | every index names a vertex of its own quad and is below the vertex count |
| Mesher.QuadVertices | src/world/mesher.ts:28-30 | each vertex is the corner template plus the cell, and each normal is the face direction |
| Mesher.FaceQuadsMembers | src/world/mesher.ts:20-38 | the first k faces emit a quad exactly for the faces whose neighbour reads 0, with the block's tile for that face |
| Mesher.CellQuadsMembers | src/world/mesher.ts:17-38 | a cell's quads are exactly the exposed quads at that cell |
| Mesher.ColumnMembers | src/world/mesher.ts:16-40 | a column lists exactly the quads of its cells with z below the bound |
| Mesher.SliceMembers | src/world/mesher.ts:15-41 | a slice lists exactly the quads of its cells with y below the bound |
| Mesher.SlicesMembers | src/world/mesher.ts:14-42 | the loops list exactly the quads of the cells in the box |
| Mesher.WorldQuadsMembers | src/world/mesher.ts:14-42 | the mesh holds exactly the exposed quads. Cells outside the grid read 0, so border faces are emitted |
| Mesher.NonSolidCellEmitsNothing | src/world/mesher.ts:17-19 | a cell without a solid block contributes no quad |
| Mesher.AllFacesOpen | src/world/mesher.ts:20-25 | with every neighbour reading 0, all faces are emitted |
| Mesher.OneFaceBlocked | src/world/mesher.ts:20-25 | with exactly one neighbour non-zero, one face fewer is emitted |
| Mesher.WorldOfTwo | src/world/mesher.ts:14-42 | when only two cells can hold blocks, the mesh has exactly their quads |
| Mesher.SurroundedByAir | src/world/mesher.ts:20-38 | a solid cell whose six neighbours read 0 emits six quads |
| Mesher.AloneNeighbours | src/world/mesher.ts:21-25 | the six neighbours of a block that is alone in the grid read 0 |
| Mesher.IsolatedBlockQuads | src/world/mesher.ts:20-38 | one solid block in an empty grid gives 6 quads |
| Mesher.IsolatedBlock | src/world/mesher.ts:20-38 | one solid block in an empty grid gives 72 position values (24 vertices), 72 normal values, 48 uv values and 36 indices |
| Mesher.FiveFaces | src/world/mesher.ts:21-25 | a solid block with a block across exactly one face emits five quads |
| Mesher.AdjacentBlocks | src/world/mesher.ts:24-25 | two face-adjacent solid blocks in an empty grid give 10 quads, because the shared face is culled on both sides |
| Mesher.AdjacentBlocksQuads | src/world/mesher.ts:24-25 | two face-adjacent solid blocks give 10 quads in the world's quad list |
| Player.OpenStandBlocked | src/player/PlayerController.ts:86-87 | the stand check holds exactly when the standing-height box has a solid hit |
| Player.PlayerController.constructor | src/player/PlayerController.ts:10-25 | the player starts at the spawn point, at rest, yaw and pitch 0, not grounded, walking, first person, standing, no taps recorded, no latch |
| Player.Looked | src/player/PlayerController.ts:42-48 | definition: the mouse look, with the delta clamped to 120, the yaw wrapped past 1e6 and the pitch clamped; `LookBounds` states its bounds |
| Player.SpaceTapped | src/player/PlayerController.ts:55-66 | definition: one Space press; `SpaceTapRules` states it |
| Player.Crouched | src/player/PlayerController.ts:83-91 | definition: the crouch flag after the frame; `CrouchRule` states it |
| Player.Latched | src/player/PlayerController.ts:93-98 | definition: the sprint latch and the W press time; `LatchRule` states it |
| Player.RawWish | src/player/PlayerController.ts:71-78 | definition: W and S along `forward`, D and A along `forward x up`, y zeroed; `WishDirUnit` states its length |
| Player.Normalized | src/player/PlayerController.ts:101 | definition: `normalize()` on the raw wish, scaling a diagonal by 1/sqrt(2); `WishDirUnit` proves the result a unit vector |
| Player.Sprinting | src/player/PlayerController.ts:100 | definition: the sprint test; `SprintOnlyOnFoot` states it |
| Player.MaxSpeed | src/player/PlayerController.ts:103 | definition: 12 flying, 3.4 crouching, 9.2 sprinting, 6.6 walking; `SpeedRules` orders them |
| Player.Friction | src/player/PlayerController.ts:112-121 | definition: walking horizontal friction; `FrictionScaleOfSpeed` and `FrictionSlows` state it |
| Player.Accelerate | src/player/PlayerController.ts:123-134 | definition: acceleration toward the wish speed, or vertical damping in fly mode without a wish; `AccelerateLimit`, `SteeringAccelerateLimit` and `FlyClimbOvershoots` state it |
| Player.ClampVelocity | src/player/PlayerController.ts:139-147 | definition: the per-component speed clamp; `ClampBounds` states it |
| Player.Oriented | src/player/PlayerController.ts:42-98 | definition: look, F5, Space, crouch and latch in source order; `OrientedKeepsPosition` states what it keeps |
| Player.Steered | src/player/PlayerController.ts:100-147 | definition: friction, acceleration, gravity and clamping, with grounded cleared; `SteeredKeepsRest` and `PrepareRules` state what it keeps |
| Player.Settled | src/player/PlayerController.ts:161-178 | definition: the ground flag, the world clamp and the respawn; `SettledRules` states it |
| Player.PlayerController.Update | src/player/PlayerController.ts:39-179 | consumes F5, Space, W and the mouse delta, and no other key. The new state is `Settled` of the x, y, z collision of `Steered(Oriented(...))`, evaluated on the old state and controls; it is inside the horizontal clamp, grounded exactly on a Y ground hit, with pitch in [-pi/2, pi/2], and not crouching while flying |
| Player.Frame | src/player/PlayerController.ts:39-179 | the prepared body, the three axis results and the settled body are those `update` computes; the settled player is inside the horizontal clamp, grounded exactly when the Y move hit ground, with pitch in [-pi/2, pi/2], yaw within 1e6, and not crouching while flying |
| Player.StandCheck | src/player/PlayerController.ts:86-87 | `collidesAt` on the standing box equals `StandBlocked` |
| Player.Prepare | src/player/PlayerController.ts:42-147 | the body after the mode changes and the velocity step is `ReadyToMove`: at the old position, not grounded, pitch in [-pi/2, pi/2], yaw within 1e6, not crouching while flying, and fly mode unchanged without a Space press |
| Player.ConsumeControls | src/player/PlayerController.ts:42-97 | the mouse delta is zeroed; only F5, Space and KeyW leave the one-shot set; held keys and the pointer lock are unchanged |
| Player.Settle | src/player/PlayerController.ts:168-178 | the world clamp and the respawn, with the ground flag from the Y move |
| Player.MoveAxes | src/player/PlayerController.ts:149-166 | x, then y, then z are resolved, each from the position and velocity the previous move left |
| Player.TurnRemBounds | src/player/PlayerController.ts:47 | JavaScript's `yaw % (2 pi)` lies strictly within one turn of 0 and keeps the sign of the yaw |
| Player.LookBounds | src/player/PlayerController.ts:42-48 | pitch ends in [-pi/2, pi/2]; without a wrap the yaw turns by at most 120 * 0.0025; the yaw ends within 1e6 of 0; nothing else changes |
| Player.CameraCycle | src/player/PlayerController.ts:50-53 | every F5 changes the mode and three presses restore it |
| Player.SpaceTapRules | src/player/PlayerController.ts:55-66 | a press within 300 ms of the previous one toggles fly mode, zeroes the velocity and clears grounded. Otherwise a grounded walker jumps at 9.5. The press time is recorded and nothing else changes |
| Player.CrouchRule | src/player/PlayerController.ts:83-91 | crouching after the frame holds exactly when walking and either Shift is held or the player was crouching with no room to stand |
| Player.LatchRule | src/player/PlayerController.ts:93-98 | the latch is on exactly when W is held and the latch was on or W was re-pressed within 250 ms; a W press records its time |
| Player.OrientedKeepsPosition | src/player/PlayerController.ts:42-98 | mode changes never move the player; without a Space press the velocity and fly mode are unchanged; the pitch ends in [-pi/2, pi/2] and the yaw within 1e6; a crouching player is not flying |
| Player.SprintOnlyOnFoot | src/player/PlayerController.ts:100-103 | sprinting holds exactly when walking, standing, with Ctrl or the latch, and steering; then the top speed is 9.2 |
| Player.SpeedRules | src/player/PlayerController.ts:103-105 | crouch < walk < sprint < fly top speed; all speeds, accelerations and frictions are positive; on foot the horizontal clamp is at least the top speed |
| Player.FrictionScaleOfSpeed | src/player/PlayerController.ts:113-119 | for every speed > 0 the source's `max(0, speed - drop) / speed` is one factor independent of the speed, in [0, 1] when friction*dt >= 0 |
| Player.FrictionSlows | src/player/PlayerController.ts:112-121 | walking friction keeps y, does not raise the horizontal speed, and is the identity in fly mode |
| Player.AccelerateLimit | src/player/PlayerController.ts:123-131 | along a unit wish direction the speed is not lowered and not raised past max(current, maxSpeed); at maxSpeed or above the velocity is unchanged (unit wishes only, see Left out) |
| Player.SteeringAccelerateLimit | src/player/PlayerController.ts:100-131 | whenever a key steers, on foot or flying without exactly one of Space and Shift, the wish is a unit vector and the bound of `AccelerateLimit` holds for it |
| Player.FlyClimbOvershoots | src/player/PlayerController.ts:107-131 | flying with Space and W from rest the wish is (1, 1, 0), and one step gives (12, 12, 0): speed 24 along the wish, twice the top speed, which the component clamp leaves as it is |
| Player.ClampBounds | src/player/PlayerController.ts:139-147 | flying bounds every component by the top speed; walking bounds x and z by 10.5 sprinting or 8.8 otherwise, and keeps y |
| Player.SteeredKeepsRest | src/player/PlayerController.ts:112-137 | the velocity step changes only the velocity and clears grounded |
| Player.PrepareRules | src/player/PlayerController.ts:42-147 | `Steered(Oriented(b, ...))` is `ReadyToMove` from b: same position, not grounded, pitch in [-pi/2, pi/2], yaw within 1e6, not crouching while flying, fly mode unchanged without a Space press |
| Player.PreparedRules | src/player/PlayerController.ts:42-147 | the same for a body known through `Prepared` |
| Player.FrameRules | src/player/PlayerController.ts:39-179 | after `Settled` of a prepared body: x and z within the clamp, grounded exactly when the Y move hit ground, pitch in [-pi/2, pi/2], yaw within 1e6, not crouching while flying |
| Player.WishDirUnit | src/player/PlayerController.ts:68-101 | the wish direction is horizontal with squared length 0, 1 or 2, and has length 1 after normalising whenever a key steers |
| Player.SettledRules | src/player/PlayerController.ts:168-178 | x and z end in [radius, 64 - radius]; grounded is the ground flag; below -20 the player respawns at the centre column's surface + 2 at rest, otherwise y and velocity are kept |
| Player.EyeBelowTop | src/player/PlayerController.ts:31-37 | the eye is inside the box standing or crouching, and crouching lowers both |
| Inputs.Input.constructor | src/input/Input.ts:1-11 | no key held or pending, pointer unlocked, no mouse movement |
| Inputs.Input.KeyDown | src/input/Input.ts:13-16 | the key is held, and pending unless the event is a repeat |
| Inputs.Input.KeyUp | src/input/Input.ts:17 | the key is no longer held; pending presses and the rest are unchanged |
| Inputs.Input.PointerLockChange | src/input/Input.ts:19-21 | locked exactly when the lock element is the canvas |
| Inputs.Input.MouseMove | src/input/Input.ts:23-27 | movement is added only while the pointer is locked |
| Inputs.Input.ConsumePressed | src/input/Input.ts:34-38 | reports whether the key was pending and clears only that key's pending press |
| Inputs.Input.ConsumeMouseDelta | src/input/Input.ts:40-46 | returns the accumulated movement and resets it to 0 |
| Inputs.Input.IsDown | src/input/Input.ts:30-32 | definition: the key is in the held set; the controls `update` reads are built from it |
| Inputs.ConsumeTwice | src/input/Input.ts:34-38 | of two consumes in a row, the second reports false |
| Inputs.DrainTwice | src/input/Input.ts:40-46 | of two delta reads in a row, the second is (0, 0) |
| Particles.ParticleColorFallbacks | src/effects/particles.ts:44-45 | ids 1..7 give their tint, air gives white, unknown ids give grass's tint |
| Particles.ParticleColor | src/effects/particles.ts:44-45 | definition: the block's tint, block 1 standing in for an unknown id and white for an entry without a tint; `ParticleColorFallbacks` states it |
| Particles.NewParticle | src/effects/particles.ts:50-61 | definition: the k-th particle of a burst, drawn from seven random numbers in source order; `NewParticleLife` states its lifetime |
| Particles.SpawnedCount | src/effects/particles.ts:46-49 | definition: 18, or as many as fit under 400; `SpawnedCountBounds` states it |
| Particles.Advance | src/effects/particles.ts:71-78 | definition: one frame for one particle; `AdvanceMotion` states it |
| Particles.Survivors | src/effects/particles.ts:69-78 | definition: the particles left after a frame, advanced, in order; `ParticleSystem.Update` is proved to compute it and `SurvivorsExact`, `SurvivorsShrink` and `SurvivorsOfConcat` state its meaning |
| Particles.Burst | src/effects/particles.ts:48-62 | a burst of n particles, the k-th drawn from the k-th group of random numbers |
| Particles.ParticleSystem.constructor | src/effects/particles.ts:22-41 | the pool starts empty |
| Particles.ParticleSystem.Spawn | src/effects/particles.ts:43-63 | appends the burst in the block's colour; the length becomes min(old + 18, max(old, 400)) |
| Particles.ParticleSystem.SpawnColored | src/effects/particles.ts:48-62 | the spawn loop appends `SpawnedCount` new particles after the old ones |
| Particles.ParticleSystem.Update | src/effects/particles.ts:65-99 | the back-to-front loop with removal leaves `Survivors(old, dt)`; the draw count is min(survivors, 400) |
| Particles.SurvivorsStep | src/effects/particles.ts:69-78 | the survivors from index i are that particle's outcome followed by the survivors after it |
| Particles.SpawnedCountBounds | src/effects/particles.ts:46-49 | a burst never takes a pool of at most 400 above 400, and adds at most 18 |
| Particles.NewParticleLife | src/effects/particles.ts:51-58 | a new particle's time left equals its lifetime, which lies in [0.5, 0.9) for draws in [0, 1) |
| Particles.SurvivorsOfConcat | src/effects/particles.ts:69-75 | survivors keep the list order: the frame step distributes over concatenation |
| Particles.SurvivorsShrink | src/effects/particles.ts:69-75 | the list never grows, and every survivor has time left |
| Particles.SurvivorsExact | src/effects/particles.ts:69-78 | a particle survives exactly when it had more than dt left, and it survives advanced |
| Particles.AllExpire | src/effects/particles.ts:71-75 | when every particle runs out in this frame the pool empties |
| Particles.AdvanceMotion | src/effects/particles.ts:77-78 | a survivor's vertical speed drops by 24 * 0.4 * dt, then it moves by vel*dt; its lifetime and colour are kept |
| Particles.SurvivorsStayFresh | src/effects/particles.ts:84 | for dt >= 0 the survivors of fresh particles are fresh, so every fade ttl/life lies in (0, 1] |
| Particles.FadeInRange | src/effects/particles.ts:84 | a fresh particle's fade lies in (0, 1] |
| BlockSounds.ToUrls | src/audio/blockSounds.ts:54-56 | same length and order, each path prefixed with `/assets/sounds/` |
| BlockSounds.GroupForBlock | src/audio/blockSounds.ts:34-52 | definition: the `switch` from block id to sound group; `GroupsOfBlocks` states it |
| BlockSounds.BreakPaths | src/audio/blockSounds.ts:7-14 | definition: the `BREAK` table; `FourPaths`, `DirtSoundsLikeGravel` and `LeavesSoundLikeGrass` state its shape |
| BlockSounds.PlacePaths | src/audio/blockSounds.ts:16-23 | definition: the `PLACE` table; the same three lemmas state its shape |
| BlockSounds.StepPaths | src/audio/blockSounds.ts:25-32 | definition: the `STEP` table; the same three lemmas state its shape |
| BlockSounds.BreakSoundUrls | src/audio/blockSounds.ts:58-60 | definition: `breakSoundUrls`; `FourUrlsUnderBase`, `SameGroupSameUrls` and `WoodAndPlanksShareUrls` state it |
| BlockSounds.PlaceSoundUrls | src/audio/blockSounds.ts:62-64 | definition: `placeSoundUrls`; the same three lemmas state it |
| BlockSounds.StepSoundUrls | src/audio/blockSounds.ts:66-68 | definition: `stepSoundUrls`; the same three lemmas state it |
| BlockSounds.LeavesSoundLikeGrass | src/audio/blockSounds.ts:7-32 | the leaves group uses the grass clips for every event |
| BlockSounds.DirtSoundsLikeGravel | src/audio/blockSounds.ts:7-32 | the dirt group's clips are under `block/gravel/` |
| BlockSounds.FourPaths | src/audio/blockSounds.ts:7-32 | every table row has four clips |
| BlockSounds.GroupsOfBlocks | src/audio/blockSounds.ts:34-52 | 1 is grass, 2 dirt, 4 sand, 6 leaves; wood exactly for 5 and 7; stone exactly for 3 and every id outside 1..7 |
| BlockSounds.FourUrlsUnderBase | src/audio/blockSounds.ts:54-68 | every event gives four urls, each the sound directory followed by the group's clip |
| BlockSounds.SameGroupSameUrls | src/audio/blockSounds.ts:58-68 | blocks of the same group get the same url lists |
| BlockSounds.WoodAndPlanksShareUrls | src/audio/blockSounds.ts:44-50 | ids 5 and 7 give identical lists, and every unknown id sounds like stone |
| Game.IndexOf | src/main.ts:206 | `indexOf`: -1 exactly when absent, otherwise the first index holding the id |
| Game.DigitRun | src/main.ts:169 | the length of the leading digit run that `parseInt` reads |
| Game.InitialCounts | src/main.ts:72-75 | the inventory starts at 64 for each of 1..7 and has no entry for any other id |
| Game.PlaceAllowed | src/main.ts:106-114 | definition: the five guards of `placeBlock` in source order; `Session.PlaceBlock` places exactly when they hold |
| Game.CellCentre | src/main.ts:133 | definition: `block.clone().addScalar(0.5)`, where `BreakBlock` spawns the burst |
| Game.WheelNext | src/main.ts:205-208 | definition: the wheel rule on the hotbar; `WheelStaysOnHotbar`, `WheelStep` and `WheelFullCircle` state it |
| Game.DigitSelection | src/main.ts:168-171 | definition: the digit-key rule; `DigitSelectsHotbarBlock` states it |
| Game.Session.constructor | src/main.ts:72-82 | a flat 64 x 32 x 64 world; the player at (32.5, 8, 32.5), two above the centre column's surface; block 1 selected; panel closed; 64 of every hotbar block |
| Game.Session.PlaceBlock | src/main.ts:105-123 | placing happens exactly when all five guards pass: a pick exists; the selection is not air; its count is above 0; the target is in bounds; the target does not intersect the player's box. Then the target holds the selection, its count drops by 1 and every other cell is unchanged; otherwise nothing changes |
| Game.Session.BreakBlock | src/main.ts:125-144 | nothing happens without a pick or on air. Otherwise the cell becomes 0, that id's count rises by 1, every other cell is unchanged, and a burst is spawned at the cell centre in the block's colour |
| Game.Session.KeyDown | src/main.ts:161-176 | KeyE toggles the panel; a digit key selects its hotbar block when there is one; nothing else changes |
| Game.Session.Wheel | src/main.ts:203-210 | with the panel closed the selection becomes `WheelNext`; with it open nothing changes |
| Game.Session.InventorySelect | src/main.ts:150-153 | the block clicked in the panel becomes the selection |
| Game.Session.MouseDown | src/main.ts:198-202 | nothing happens unless the pointer is locked and the panel is closed. Button 0 breaks under the break rule: the cell becomes 0, its count rises by 1, other cells are kept and the burst is appended. Button 2 places under the place rule: the target holds the selection, its count drops by 1, other cells and the particles are kept. Otherwise world, inventory and particles are unchanged |
| Game.Session.Frame | src/main.ts:222-265 | the step is min(0.05, clock delta). With the panel closed the player runs `update`, which consumes F5, Space, W and the mouse delta; with it open only its horizontal velocity is zeroed and the input is untouched. Then particles age by the step and the draw count is min(survivors, 400). The session invariant is kept |
| Game.Session.StepPlayer | src/main.ts:223-227 | the player's part of a frame: `update` with the panel closed, consuming only F5, Space, W and the mouse delta; with it open the horizontal velocity is zeroed and the input is untouched; the horizontal world clamp is kept |
| Game.WheelStaysOnHotbar | src/main.ts:203-208 | the wheel always selects a hotbar block; from an unknown selection it goes to block 1 or block 6 |
| Game.HotbarIsDistinct | src/world/blocks.ts:119 | the seven hotbar entries are pairwise different |
| Game.SlotOfBlock | src/main.ts:206 | on a hotbar of distinct blocks, `indexOf` of slot i's block is i |
| Game.WheelStepOn | src/main.ts:205-208 | on a distinct seven-slot hotbar, a turn moves slot i to (i + 1) mod 7 downward, (i - 1) mod 7 upward |
| Game.WheelStep | src/main.ts:205-208 | the same step on `SELECTABLE_BLOCK_IDS` |
| Game.WheelBackAndForthOn | src/main.ts:205-208 | a turn and a turn back restore the selection on a distinct hotbar |
| Game.WheelBackAndForth | src/main.ts:205-208 | a turn and a turn back restore the selection on the hotbar |
| Game.RepeatCycles | src/main.ts:207 | a step that advances every slot by one, taken n times, takes slot i to (i + n) mod 7 |
| Game.WheelTurnsForward | src/main.ts:205-208 | n downward turns from slot i reach slot (i + n) mod 7 |
| Game.WheelFullCircle | src/main.ts:205-208 | seven turns in one direction come back to the block selected before |
| Game.DigitSelectsHotbarBlock | src/main.ts:168-175 | Digit1..Digit7 select blocks 1..7; Digit0, Digit8, Digit9 and codes not starting with `Digit` select nothing; any selection is a hotbar block |
| Game.SingleDigit | src/main.ts:169 | `parseInt` of one digit is its value |

## Left out

- Rendering is not modelled: THREE geometry and material construction (src/world/mesher.ts:44-61), the particle GPU buffers (src/effects/particles.ts:22-41 and 92-98), lighting, the renderer and the player model. They draw but decide nothing.
- `updateCamera` and the camera raycast, and the `pickBlock` raycast against the rendered mesh. The pick is an input, and its normal is an integer cell offset.
- `TILE_PAINTERS`, the canvas painters, and the texture atlas. The atlas is a function from tile key to uv rectangle.
- Audio playback, sound preloading, the footstep timing in `animate`, HUD rendering, `refreshUI`, `exitPointerLock`, the canvas click, contextmenu and resize handlers, and the async asset probing. They are browser I/O and change none of the modelled state.
- `src/main.js` is a superseded entry point and is not part of this model.
- Player.PlayerController.Update: the forward vector from `applyAxisAngle` and `normalize` is the input `forward`, and 1/sqrt(2) is the input `invSqrt2`. `Math.hypot` is not modelled: friction uses the factor `max(0, 1 - friction*dt)`, which `FrictionScaleOfSpeed` proves equal to the source's `max(0, speed - drop) / speed` for every positive speed.
- Player.PlayerController.Update: the controls are read from the input at the start, and the one-shot reads (mouse delta, F5, Space, W) are consumed at the end. The source interleaves them but reads nothing that they change.
- Player.PlayerController.Update: the stand-up collision check is computed every frame. The source runs it only when walking, not holding Shift and crouching, and its result is used only then.
- Player.AccelerateLimit: the bound holds for a unit wish direction only. In fly mode with a movement key and exactly one of Space and Shift held, the source adds the vertical unit after normalising, so the wish has squared length 2 and one step can pass the top speed along it; `FlyClimbOvershoots` shows this, and `ClampBounds` bounds each component afterwards. `SteeringAccelerateLimit` proves the bound for every other steering case.
- Player.TurnRemBounds: JavaScript's remainder is stated for the divisor 2 pi only, which is the only divisor the source uses.
- Game.DigitSelection: `parseInt` skips leading whitespace and accepts a sign. Key codes hold neither, so the model reads only the leading decimal digits.
- Game.Session.Frame: the camera, the player model and the footstep sounds of `animate` are left out. The frame step is the input `clockDelta`.
- Game.Session.PlaceBlock and Game.Session.BreakBlock: the mesh rebuild and the sound are left out. The HUD label `BLOCK_TYPES[id].name` is not looked up.
- VoxelGrid.VoxelWorld: the flat `Uint8Array` is stored as an `array3` indexed by (x, y, z). `IndexInRange` and `IndexInjective` show that the flat layout gives every in-bounds cell its own slot, so the two stores hold the same information.
- Floating point is modelled with exact reals. Rounding of the source's doubles and of `Float32Array` values is not modelled.
- VoxelGrid.VoxelWorld.Get takes integer cell coordinates, and so do the cell loops of `collidesAt` and `collideAxis`. The source calls `get` only with floored or integer values, and its loop bounds are `Math.floor` results. `CollideAxis` itself takes the real position and move.
