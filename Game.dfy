/**
 * The game loop's edit and selection rules (src/main.ts): the hotbar
 * selection, the inventory record with 64 of every selectable block, placing
 * and breaking the block under the crosshair, the key, wheel and mouse-button
 * handlers, and one frame of `animate`.
 *
 * `pickBlock` casts a ray against the rendered mesh; its result, the hit cell
 * and the face normal (an axis unit vector with integer components), is an
 * input here. Sounds, the HUD and the camera are not part of this model.
 */
module Game {
  import opened Wrappers
  import opened Geometry
  import opened Aabb
  import opened VoxelGrid
  import Blocks
  import Collision
  import Config
  import Terrain
  import Inputs
  import Particles
  import Player

  /** `pickBlock()`: the cell the ray hit and the normal of the face it entered through. */
  datatype Pick = Pick(block: Cell, normal: Cell)

  /** The count the inventory starts with for every selectable block. */
  const StartCount: int := 64

  /** Largest frame step, in seconds. */
  const MaxFrameStep: real := 0.05

  /** `inventory` after `for (const id of SELECTABLE_BLOCK_IDS) inventory[id] = 64`. */
  function InitialInventory(): map<int, int>
  {
    map id | id in Blocks.SelectableBlockIds :: StartCount
  }

  /** `inventory[id] ?? 0` */
  function Count(inventory: map<int, int>, id: int): int
  {
    if id in inventory then inventory[id] else 0
  }

  /** `picked.block.clone().add(picked.normal)`: the cell in front of the hit face. */
  function PlaceTarget(p: Pick): Cell
  {
    Cell(p.block.x + p.normal.x, p.block.y + p.normal.y, p.block.z + p.normal.z)
  }

  /** The guards of `placeBlock`, in source order; `playerBox` is the player's box at its current height. */
  predicate PlaceAllowed(world: VoxelWorld, picked: Option<Pick>, selected: int, inventory: map<int, int>, playerBox: AABB)
    reads world
  {
    && picked.Some?
    && selected != Blocks.AirId
    && Count(inventory, selected) > 0
    && world.InBounds(PlaceTarget(picked.value).x, PlaceTarget(picked.value).y, PlaceTarget(picked.value).z)
    && !Intersects(playerBox, BlockAABB(PlaceTarget(picked.value)))
  }

  /** `SELECTABLE_BLOCK_IDS.indexOf(id)`: the first index holding `id`, or -1. */
  function IndexOf(s: seq<int>, id: int): (i: int)
    ensures -1 <= i < |s|
    ensures i == -1 <==> id !in s
    ensures i >= 0 ==> s[i] == id && forall k :: 0 <= k < i ==> s[k] != id
  {
    if s == [] then -1
    else if s[0] == id then 0
    else
      var r := IndexOf(s[1..], id);
      if r == -1 then -1 else r + 1
  }

  /**
   * The wheel handler's new index, `(idx + dir + length) % length`, where the
   * length of `SELECTABLE_BLOCK_IDS` is 7. With
   * `idx >= -1` the left operand is never negative, so JavaScript's remainder
   * and Dafny's agree.
   */
  function WheelIndex(idx: int, dir: int): int
    requires -1 <= idx < 7 && (dir == 1 || dir == -1)
  {
    (idx + dir + 7) % 7
  }

  /** The block a wheel turn selects on a seven-slot hotbar: the next slot for `deltaY > 0`, the previous one otherwise. */
  function WheelNextOn(hotbar: seq<int>, selected: int, deltaY: real): int
    requires |hotbar| == 7
  {
    var dir := if deltaY > 0.0 then 1 else -1;
    hotbar[WheelIndex(IndexOf(hotbar, selected), dir)]
  }

  /** The wheel rule on `SELECTABLE_BLOCK_IDS`. */
  function WheelNext(selected: int, deltaY: real): int
  {
    WheelNextOn(Blocks.SelectableBlockIds, selected, deltaY)
  }

  predicate IsDigit(ch: char) { '0' <= ch <= '9' }

  /** The length of the run of decimal digits at the front of `s`. */
  function DigitRun(s: string): (n: nat)
    ensures n <= |s|
    ensures forall k :: 0 <= k < n ==> IsDigit(s[k])
    ensures n < |s| ==> !IsDigit(s[n])
  {
    if s == [] || !IsDigit(s[0]) then 0 else 1 + DigitRun(s[1..])
  }

  /** The value of a string of decimal digits. */
  function DecimalValue(s: string): nat
    requires forall k :: 0 <= k < |s| ==> IsDigit(s[k])
  {
    if s == [] then 0
    else
      assert IsDigit(s[|s| - 1]);
      DecimalValue(s[..|s| - 1]) * 10 + (s[|s| - 1] as int - '0' as int)
  }

  /** `Number.parseInt(s, 10)` on a string without leading blanks or sign: `None` stands for `NaN`. */
  function ParseDecimal(s: string): Option<nat>
  {
    var n := DigitRun(s);
    if n == 0 then None else Some(DecimalValue(s[..n]))
  }

  /**
   * The digit-key rule: for a code starting with `Digit`, the number after it
   * minus one indexes the hotbar, and a slot that does not exist selects nothing.
   */
  function DigitSelection(code: string): Option<int>
  {
    if |code| >= 5 && code[..5] == "Digit" then
      var n := ParseDecimal(code[5..]);
      if n.Some? && 1 <= n.value <= 7 then Some(Blocks.SelectableBlockIds[n.value - 1]) else None
    else None
  }

  /**
   * The state `start()` keeps between events: the selection, whether the
   * inventory panel is open and the inventory itself, around the world, the
   * player, the particle pool and the input state it creates.
   */
  class Session {
    var selected: int
    var inventoryOpen: bool
    var inventory: map<int, int>
    const world: VoxelWorld
    const player: Player.PlayerController
    const particles: Particles.ParticleSystem
    const input: Inputs.Input

    /**
     * The session's invariant: the grid is well formed, the selection is a
     * hotbar block, every hotbar block has an inventory entry, and the player
     * stands inside the world horizontally.
     */
    ghost predicate Valid()
      reads this, world, player
    {
      && world.Valid()
      && selected in Blocks.SelectableBlockIds
      && (forall id :: id in Blocks.SelectableBlockIds ==> id in inventory)
      && InsideHorizontally(player.pos)
    }

    /**
     * `start()`: a 64 x 32 x 64 flat world, the player two cells above the
     * centre column's surface, block 1 selected, 64 of every hotbar block.
     */
    constructor ()
      ensures Valid() && fresh(world) && fresh(world.data) && fresh(player) && fresh(particles) && fresh(input)
      ensures world.width == Config.WorldWidth && world.height == Config.WorldHeight && world.depth == Config.WorldDepth
      ensures Terrain.IsFlat(world)
      ensures player.State() == Player.Body(Vec3(32.5, 8.0, 32.5), Zero, 0.0, 0.0, false, false, Player.First, false, 0.0, 0.0, false)
      ensures particles.alive == [] && input.pressed == {} && !input.pointerLocked
      ensures selected == Blocks.SelectableBlockIds[0] && !inventoryOpen && inventory == InitialInventory()
    {
      var w := new VoxelWorld(Config.WorldWidth, Config.WorldHeight, Config.WorldDepth);
      Terrain.GenerateFlatWorld(w);
      var surface := w.SurfaceY(Config.WorldWidth / 2, Config.WorldDepth / 2);
      Terrain.FlatSurface(w, Config.WorldWidth / 2, Config.WorldDepth / 2);
      var spawn := Vec3(Config.WorldWidth as real / 2.0 + 0.5, surface as real + 2.0, Config.WorldDepth as real / 2.0 + 0.5);
      world := w;
      player := new Player.PlayerController(spawn);
      particles := new Particles.ParticleSystem();
      input := new Inputs.Input();
      selected := Blocks.SelectableBlockIds[0];
      inventoryOpen := false;
      inventory := InitialInventory();
    }

    /**
     * `placeBlock()`: when every guard passes, the target cell becomes the
     * selected block and its count drops by one; otherwise nothing changes.
     */
    method PlaceBlock(picked: Option<Pick>) returns (placed: bool)
      requires Valid()
      modifies this, world.data
      ensures Valid()
      ensures placed <==> old(PlaceAllowed(world, picked, selected, inventory,
                                            Collision.PlayerAABB(player.pos, Config.PlayerRadius, player.Height())))
      ensures selected == old(selected) && inventoryOpen == old(inventoryOpen)
      ensures !placed ==> inventory == old(inventory) && unchanged(world.data)
      ensures placed ==>
        var t := PlaceTarget(picked.value);
        && world.Get(t.x, t.y, t.z) == selected
        && inventory == old(inventory)[selected := old(Count(inventory, selected)) - 1]
        && forall x, y, z :: (x != t.x || y != t.y || z != t.z) ==> world.Get(x, y, z) == old(world.Get(x, y, z))
    {
      var playerBox := Collision.PlayerAABB(player.pos, Config.PlayerRadius, player.Height());
      if picked.None? || selected == Blocks.AirId {
        return false;
      }
      if Count(inventory, selected) <= 0 {
        return false;
      }
      var t := PlaceTarget(picked.value);
      if !world.InBounds(t.x, t.y, t.z) {
        return false;
      }
      if Intersects(playerBox, BlockAABB(t)) {
        return false;
      }
      world.Set(t.x, t.y, t.z, selected);
      inventory := inventory[selected := Count(inventory, selected) - 1];
      placed := true;
    }

    /**
     * `breakBlock()`: a picked non-air cell becomes air, its block is added to
     * the inventory and a burst of particles of its colour appears at the
     * cell's centre; with no pick or an air cell nothing changes.
     */
    method BreakBlock(picked: Option<Pick>, rnd: nat -> real) returns (broken: Option<int>)
      requires Valid()
      modifies this, world.data, particles
      ensures Valid()
      ensures selected == old(selected) && inventoryOpen == old(inventoryOpen)
      ensures broken.None? <==> picked.None? || old(world.Get(picked.value.block.x, picked.value.block.y, picked.value.block.z)) == 0
      ensures broken.None? ==>
        inventory == old(inventory) && unchanged(world.data) && particles.alive == old(particles.alive)
      ensures broken.Some? ==>
        var c := picked.value.block;
        var id := broken.value;
        && id == old(world.Get(c.x, c.y, c.z))
        && world.Get(c.x, c.y, c.z) == 0
        && inventory == old(inventory)[id := old(Count(inventory, id)) + 1]
        && (forall x, y, z :: (x != c.x || y != c.y || z != c.z) ==> world.Get(x, y, z) == old(world.Get(x, y, z)))
        && particles.alive == old(particles.alive) +
             Particles.Burst(CellCentre(c), Particles.ParticleColor(id), rnd, Particles.SpawnedCount(|old(particles.alive)|))
    {
      if picked.None? {
        return None;
      }
      var c := picked.value.block;
      var id := world.Get(c.x, c.y, c.z) as int;
      if id == 0 {
        return None;
      }
      world.Set(c.x, c.y, c.z, 0);
      inventory := inventory[id := Count(inventory, id) + 1];
      particles.Spawn(CellCentre(c), id, rnd);
      broken := Some(id);
    }

    /**
     * The game's `keydown` listener: E opens or closes the inventory panel, a
     * digit key selects its hotbar slot when there is one.
     */
    method KeyDown(code: string)
      requires Valid()
      modifies this
      ensures Valid()
      ensures inventory == old(inventory)
      ensures inventoryOpen == if code == "KeyE" then !old(inventoryOpen) else old(inventoryOpen)
      ensures selected == if code != "KeyE" && DigitSelection(code).Some? then DigitSelection(code).value else old(selected)
    {
      if code == "KeyE" {
        inventoryOpen := !inventoryOpen;
        return;
      }
      var id := DigitSelection(code);
      DigitSelectsHotbarBlock(code);
      if id.Some? {
        selected := id.value;
      }
    }

    /** The `wheel` listener: with the panel closed the selection moves one slot. */
    method Wheel(deltaY: real)
      requires Valid()
      modifies this
      ensures Valid()
      ensures inventory == old(inventory) && inventoryOpen == old(inventoryOpen)
      ensures selected == if old(inventoryOpen) then old(selected) else WheelNext(old(selected), deltaY)
    {
      if inventoryOpen {
        return;
      }
      WheelStaysOnHotbar(selected, deltaY);
      selected := WheelNext(selected, deltaY);
    }

    /** The inventory panel's select handler: the hotbar block clicked in the panel becomes the selection. */
    method InventorySelect(id: int)
      requires Valid() && id in Blocks.SelectableBlockIds
      modifies this
      ensures Valid()
      ensures selected == id && inventory == old(inventory) && inventoryOpen == old(inventoryOpen)
    {
      selected := id;
    }

    /**
     * The `mousedown` listener: only with the pointer locked and the panel
     * closed, button 0 breaks and button 2 places.
     */
    method MouseDown(button: int, picked: Option<Pick>, rnd: nat -> real) returns (broken: Option<int>, placed: bool)
      requires Valid()
      modifies this, world.data, particles
      ensures Valid()
      ensures selected == old(selected) && inventoryOpen == old(inventoryOpen)
      ensures (!input.pointerLocked || old(inventoryOpen)) ==>
        broken.None? && !placed && inventory == old(inventory) && unchanged(world.data)
      ensures button != 0 ==> broken.None?
      ensures button != 2 ==> !placed
      ensures button == 2 && input.pointerLocked && !old(inventoryOpen) ==>
        (placed <==> old(PlaceAllowed(world, picked, selected, inventory,
                                      Collision.PlayerAABB(player.pos, Config.PlayerRadius, player.Height()))))
      ensures button == 0 && input.pointerLocked && !old(inventoryOpen) ==>
        (broken.None? <==> picked.None? || old(world.Get(picked.value.block.x, picked.value.block.y, picked.value.block.z)) == 0)
      ensures broken.None? && !placed ==>
        inventory == old(inventory) && unchanged(world.data) && particles.alive == old(particles.alive)
      ensures broken.Some? ==>
        var c := picked.value.block;
        var id := broken.value;
        && id == old(world.Get(c.x, c.y, c.z))
        && world.Get(c.x, c.y, c.z) == 0
        && inventory == old(inventory)[id := old(Count(inventory, id)) + 1]
        && (forall x, y, z :: (x != c.x || y != c.y || z != c.z) ==> world.Get(x, y, z) == old(world.Get(x, y, z)))
        && particles.alive == old(particles.alive) +
             Particles.Burst(CellCentre(c), Particles.ParticleColor(id), rnd, Particles.SpawnedCount(|old(particles.alive)|))
      ensures placed ==>
        var t := PlaceTarget(picked.value);
        && world.Get(t.x, t.y, t.z) == selected
        && inventory == old(inventory)[selected := old(Count(inventory, selected)) - 1]
        && (forall x, y, z :: (x != t.x || y != t.y || z != t.z) ==> world.Get(x, y, z) == old(world.Get(x, y, z)))
        && particles.alive == old(particles.alive)
    {
      broken, placed := None, false;
      if !input.pointerLocked || inventoryOpen {
        return;
      }
      if button == 0 {
        broken := BreakBlock(picked, rnd);
      }
      if button == 2 {
        placed := PlaceBlock(picked);
      }
    }
    /**
     * One `animate` frame: the step is the clock's delta capped at 0.05 s; the
     * player moves by that step, then the particles age by it. The world, the
     * selection and the inventory are left alone.
     */
    method Frame(clockDelta: real, spaceNow: real, forwardNow: real, forward: Vec3, invSqrt2: real)
      returns (dt: real, pre: Player.Body, rx: Collision.AxisResult, ry: Collision.AxisResult, rz: Collision.AxisResult)
      requires Valid()
      modifies player, input, particles
      ensures Valid()
      ensures dt == Min(MaxFrameStep, clockDelta) && dt <= MaxFrameStep
      ensures particles.alive == Particles.Survivors(old(particles.alive), dt)
      ensures particles.drawCount == MinInt(|particles.alive|, Particles.MaxParticles)
      ensures inventoryOpen ==>
        && input.pressed == old(input.pressed) && input.justPressed == old(input.justPressed)
        && input.pointerLocked == old(input.pointerLocked)
        && input.mouseDX == old(input.mouseDX) && input.mouseDY == old(input.mouseDY)
      ensures !inventoryOpen ==>
        && input.pressed == old(input.pressed) && input.pointerLocked == old(input.pointerLocked)
        && input.justPressed == old(input.justPressed) - {"F5", "Space", "KeyW"}
        && input.mouseDX == 0.0 && input.mouseDY == 0.0
      ensures inventoryOpen ==> player.State() == old(player.State()).(vel := old(player.vel).(x := 0.0, z := 0.0))
      ensures !inventoryOpen ==>
        var c := Player.ControlsOf(old(input.pressed), old(input.justPressed), old(input.mouseDX), old(input.mouseDY));
        && Player.Prepared(old(player.State()), c, spaceNow, forwardNow, old(Player.StandBlocked(world, player.pos)), dt, forward, invSqrt2, pre)
        && Player.Moved(world, pre.pos, pre.vel, dt, Config.PlayerRadius, Player.HeightOf(pre.crouching), rx, ry, rz)
        && player.State() == Player.Settled(pre, rz, ry.groundHit, world.SurfaceOf(Config.WorldWidth / 2, Config.WorldDepth / 2))
    {
      dt := Min(MaxFrameStep, clockDelta);
      pre, rx, ry, rz := StepPlayer(dt, spaceNow, forwardNow, forward, invSqrt2);
      particles.Update(dt);
    }

    /** The player's part of a frame: `update` with the panel closed, a horizontal stop with it open. */
    method StepPlayer(dt: real, spaceNow: real, forwardNow: real, forward: Vec3, invSqrt2: real)
      returns (pre: Player.Body, rx: Collision.AxisResult, ry: Collision.AxisResult, rz: Collision.AxisResult)
      requires Valid()
      modifies player, input
      ensures Valid()
      ensures inventoryOpen ==>
        && input.pressed == old(input.pressed) && input.justPressed == old(input.justPressed)
        && input.pointerLocked == old(input.pointerLocked)
        && input.mouseDX == old(input.mouseDX) && input.mouseDY == old(input.mouseDY)
      ensures !inventoryOpen ==>
        && input.pressed == old(input.pressed) && input.pointerLocked == old(input.pointerLocked)
        && input.justPressed == old(input.justPressed) - {"F5", "Space", "KeyW"}
        && input.mouseDX == 0.0 && input.mouseDY == 0.0
      ensures inventoryOpen ==> player.State() == old(player.State()).(vel := old(player.vel).(x := 0.0, z := 0.0))
      ensures !inventoryOpen ==>
        var c := Player.ControlsOf(old(input.pressed), old(input.justPressed), old(input.mouseDX), old(input.mouseDY));
        && Player.Prepared(old(player.State()), c, spaceNow, forwardNow, old(Player.StandBlocked(world, player.pos)), dt, forward, invSqrt2, pre)
        && Player.Moved(world, pre.pos, pre.vel, dt, Config.PlayerRadius, Player.HeightOf(pre.crouching), rx, ry, rz)
        && player.State() == Player.Settled(pre, rz, ry.groundHit, world.SurfaceOf(Config.WorldWidth / 2, Config.WorldDepth / 2))
    {
      if inventoryOpen {
        var still := Collision.AxisResult(player.pos, player.vel, false);
        pre, rx, ry, rz := player.State(), still, still, still;
        player.vel := player.vel.(x := 0.0, z := 0.0);
        return;
      }
      pre, rx, ry, rz := player.Update(dt, input, world, spaceNow, forwardNow, forward, invSqrt2);
      Player.SettledRules(pre, rz, ry.groundHit, world.SurfaceOf(Config.WorldWidth / 2, Config.WorldDepth / 2));
    }
  }

  /** `block.clone().addScalar(0.5)` */
  function CellCentre(c: Cell): Vec3
  {
    Vec3(c.x as real + 0.5, c.y as real + 0.5, c.z as real + 0.5)
  }

  /** x and z within the world clamp of `update`. */
  predicate InsideHorizontally(p: Vec3)
  {
    && Config.PlayerRadius <= p.x <= Config.WorldWidth as real - Config.PlayerRadius
    && Config.PlayerRadius <= p.z <= Config.WorldDepth as real - Config.PlayerRadius
  }

  // Properties of the rules.

  /** Every hotbar block starts with 64, and no other block has an entry. */
  lemma InitialCounts(id: int)
    ensures Count(InitialInventory(), id) == if 1 <= id <= 7 then StartCount else 0
  {
    Blocks.SelectableIdsAreSolidBlocks();
  }

  /** The wheel always lands on a hotbar slot, whatever was selected. */
  lemma WheelStaysOnHotbar(selected: int, deltaY: real)
    ensures WheelNext(selected, deltaY) in Blocks.SelectableBlockIds
    ensures selected !in Blocks.SelectableBlockIds ==> WheelNext(selected, deltaY) == (if deltaY > 0.0 then 1 else 6)
  {
    Blocks.SelectableIdsAreSolidBlocks();
  }

  /** Seven slots holding seven different blocks. */
  predicate DistinctSlots(hotbar: seq<int>)
  {
    |hotbar| == 7 && forall a, b :: 0 <= a < b < 7 ==> hotbar[a] != hotbar[b]
  }

  lemma HotbarIsDistinct()
    ensures DistinctSlots(Blocks.SelectableBlockIds)
  {
    Blocks.SelectableIdsAreSolidBlocks();
  }

  /** `x % 7` for `0 <= x < 21`, without division. */
  lemma SmallMod(x: int)
    requires 0 <= x < 21
    ensures x % 7 == if x < 7 then x else if x < 14 then x - 7 else x - 14
  {
  }

  lemma ModSucc(x: int)
    requires x >= 0
    ensures (x % 7 + 1) % 7 == (x + 1) % 7
  {
    var q, r := x / 7, x % 7;
    assert x == 7 * q + r;
    if r < 6 {
      assert x + 1 == 7 * q + (r + 1);
    } else {
      assert x + 1 == 7 * (q + 1);
    }
  }

  /** On a hotbar of distinct blocks each block sits in its own slot. */
  lemma SlotOfBlock(hotbar: seq<int>, i: int)
    requires DistinctSlots(hotbar) && 0 <= i < 7
    ensures IndexOf(hotbar, hotbar[i]) == i
  {
    var r := IndexOf(hotbar, hotbar[i]);
    assert hotbar[r] == hotbar[i];
  }

  /** From slot `i` the wheel goes to slot `i + 1` or `i - 1`, wrapping around the seven slots. */
  lemma WheelStepOn(hotbar: seq<int>, i: int, deltaY: real)
    requires DistinctSlots(hotbar) && 0 <= i < 7
    ensures WheelNextOn(hotbar, hotbar[i], deltaY) == hotbar[if deltaY > 0.0 then (i + 1) % 7 else (i + 6) % 7]
  {
    SlotOfBlock(hotbar, i);
    var dir := if deltaY > 0.0 then 1 else -1;
    SmallMod(i + dir + 7);
    SmallMod(i + 1);
    SmallMod(i + 6);
  }

  lemma WheelStep(i: int, deltaY: real)
    requires 0 <= i < 7
    ensures WheelNext(Blocks.SelectableBlockIds[i], deltaY) ==
      Blocks.SelectableBlockIds[if deltaY > 0.0 then (i + 1) % 7 else (i + 6) % 7]
  {
    HotbarIsDistinct();
    WheelStepOn(Blocks.SelectableBlockIds, i, deltaY);
  }

  /** A turn one way and a turn back restore the selection. */
  lemma WheelBackAndForthOn(hotbar: seq<int>, selected: int, deltaY: real)
    requires DistinctSlots(hotbar) && selected in hotbar && deltaY != 0.0
    ensures WheelNextOn(hotbar, WheelNextOn(hotbar, selected, deltaY), -deltaY) == selected
  {
    var i := IndexOf(hotbar, selected);
    WheelStepOn(hotbar, i, deltaY);
    var j := if deltaY > 0.0 then (i + 1) % 7 else (i + 6) % 7;
    SmallMod(i + 1);
    SmallMod(i + 6);
    WheelStepOn(hotbar, j, -deltaY);
    SmallMod(j + 1);
    SmallMod(j + 6);
  }

  lemma WheelBackAndForth(selected: int, deltaY: real)
    requires selected in Blocks.SelectableBlockIds && deltaY != 0.0
    ensures WheelNext(WheelNext(selected, deltaY), -deltaY) == selected
  {
    HotbarIsDistinct();
    WheelBackAndForthOn(Blocks.SelectableBlockIds, selected, deltaY);
  }

  /** `step` applied `n` times to `x`. */
  function Repeat(step: int -> int, x: int, n: nat): int
  {
    if n == 0 then x else step(Repeat(step, x, n - 1))
  }

  /** `n` turns in the same direction. */
  function WheelTurnsOn(hotbar: seq<int>, selected: int, deltaY: real, n: nat): int
    requires |hotbar| == 7
  {
    Repeat(x => WheelNextOn(hotbar, x, deltaY), selected, n)
  }

  /** A step that moves every slot of a seven-slot hotbar on by one, repeated `n` times, moves slot `i` to slot `(i + n) % 7`. */
  lemma {:induction false} RepeatCycles(hotbar: seq<int>, step: int -> int, i: int, n: nat)
    requires |hotbar| == 7 && 0 <= i < 7
    requires forall k :: 0 <= k < 7 ==> step(hotbar[k]) == hotbar[(k + 1) % 7]
    ensures Repeat(step, hotbar[i], n) == hotbar[(i + n) % 7]
  {
    if n > 0 {
      RepeatCycles(hotbar, step, i, n - 1);
      ModSucc(i + n - 1);
    }
  }

  /** `n` downward turns from slot `i` reach slot `(i + n) % 7`. */
  lemma WheelTurnsForward(hotbar: seq<int>, i: int, deltaY: real, n: nat)
    requires DistinctSlots(hotbar) && 0 <= i < 7 && deltaY > 0.0
    ensures WheelTurnsOn(hotbar, hotbar[i], deltaY, n) == hotbar[(i + n) % 7]
  {
    var step := x => WheelNextOn(hotbar, x, deltaY);
    forall k | 0 <= k < 7
      ensures step(hotbar[k]) == hotbar[(k + 1) % 7]
    {
      WheelStepOn(hotbar, k, deltaY);
    }
    RepeatCycles(hotbar, step, i, n);
  }

  /** Seven turns in the same direction come back to the block selected before. */
  lemma WheelFullCircle(i: int, deltaY: real)
    requires 0 <= i < 7 && deltaY > 0.0
    ensures WheelTurnsOn(Blocks.SelectableBlockIds, Blocks.SelectableBlockIds[i], deltaY, 7) == Blocks.SelectableBlockIds[i]
  {
    HotbarIsDistinct();
    WheelTurnsForward(Blocks.SelectableBlockIds, i, deltaY, 7);
    SmallMod(i + 7);
  }

  /**
   * Digit1 to Digit7 select blocks 1 to 7; Digit0, Digit8, Digit9 and every
   * code that does not start with `Digit` select nothing; whatever is selected
   * is a hotbar block.
   */
  lemma DigitSelectsHotbarBlock(code: string)
    ensures DigitSelection(code).Some? ==> DigitSelection(code).value in Blocks.SelectableBlockIds
    ensures !(|code| >= 5 && code[..5] == "Digit") ==> DigitSelection(code).None?
    ensures forall d :: 1 <= d <= 7 ==> DigitSelection("Digit" + [('0' as int + d) as char]) == Some(d)
    ensures DigitSelection("Digit0").None? && DigitSelection("Digit8").None? && DigitSelection("Digit9").None?
  {
    DigitSelectionOnHotbar(code);
    forall d | 1 <= d <= 7
      ensures DigitSelection("Digit" + [('0' as int + d) as char]) == Some(d)
    {
      DigitKeySelects(d);
    }
    DigitKeysOffHotbar();
  }

  lemma DigitSelectionOnHotbar(code: string)
    ensures DigitSelection(code).Some? ==> DigitSelection(code).value in Blocks.SelectableBlockIds
    ensures !(|code| >= 5 && code[..5] == "Digit") ==> DigitSelection(code).None?
  {
    Blocks.SelectableIdsAreSolidBlocks();
  }

  lemma DigitKeySelects(d: int)
    requires 1 <= d <= 7
    ensures DigitSelection("Digit" + [('0' as int + d) as char]) == Some(d)
  {
    var code := "Digit" + [('0' as int + d) as char];
    assert code[..5] == "Digit" && code[5..] == [('0' as int + d) as char];
    SingleDigit(('0' as int + d) as char);
    Blocks.SelectableIdsAreSolidBlocks();
  }

  lemma DigitKeysOffHotbar()
    ensures DigitSelection("Digit0").None? && DigitSelection("Digit8").None? && DigitSelection("Digit9").None?
  {
    assert "Digit0"[5..] == "0" && "Digit8"[5..] == "8" && "Digit9"[5..] == "9";
    SingleDigit('0');
    SingleDigit('8');
    SingleDigit('9');
  }

  lemma SingleDigit(ch: char)
    requires IsDigit(ch)
    ensures ParseDecimal([ch]) == Some(ch as int - '0' as int)
  {
    assert [ch][1..] == [];
    assert DigitRun([ch]) == 1;
    assert [ch][..1] == [ch];
    assert [ch][..0] == [];
    assert DecimalValue([ch]) == ch as int - '0' as int;
  }
}
