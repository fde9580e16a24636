/**
 * The player's movement state machine (src/player/PlayerController.ts):
 * one `Update` per frame turns the look direction, switches camera, fly and
 * crouch modes, latches sprint, steers the velocity and moves the player's box
 * through the grid one axis at a time.
 *
 * The trigonometry and square roots of the source are inputs here: `forward`
 * is the horizontal unit vector the yaw points along (`(0, 0, -1)` turned by
 * `yaw` and flattened), and `invSqrt2` is 1/sqrt(2), the factor that
 * normalises a diagonal wish direction. `performance.now()` at the Space and W
 * presses are the inputs `spaceNow` and `forwardNow`.
 */
module Player {
  import opened Geometry
  import opened VoxelGrid
  import Collision
  import Inputs
  import Config

  datatype CameraMode = First | ThirdBack | ThirdFront

  /** `Math.PI` as a double. */
  const Pi: real := 3.141592653589793
  /** The pitch limit, a quarter turn. */
  const HalfPi: real := Pi / 2.0

  /** A pitch within a quarter turn of the horizon, up or down. */
  predicate LevelPitch(p: real) { -HalfPi <= p <= HalfPi }
  /** Largest mouse movement per frame, in pixels. */
  const MouseClamp: real := 120.0
  /** Past this magnitude the yaw is wrapped by 2 pi. */
  const YawWrapLimit: real := 1000000.0
  /** Two Space presses closer than this (ms) toggle fly mode. */
  const FlyDoubleTapMs: real := 300.0

  const FlySpeed: real := 12.0
  const CrouchSpeed: real := 3.4
  const SprintSpeed: real := 9.2
  const WalkSpeed: real := 6.6
  const FlyAccel: real := 35.0
  const GroundAccel: real := 45.0
  const AirAccel: real := 18.0
  const FlyFriction: real := 10.0
  const GroundFriction: real := 16.0
  const AirFriction: real := 0.8
  const SprintClamp: real := 10.5
  const WalkClamp: real := 8.8
  /** Below this height the player is put back at the spawn point. */
  const FallLimit: real := -20.0

  /** The fields of `PlayerController` as one value. */
  datatype Body = Body(pos: Vec3, vel: Vec3, yaw: real, pitch: real, grounded: bool, flyMode: bool,
                       cameraMode: CameraMode, crouching: bool, lastSpaceTap: real, lastForwardTap: real,
                       sprintLatch: bool)

  /** What one `update` reads from `Input`. */
  datatype Controls = Controls(mouseDX: real, mouseDY: real, f5Tapped: bool, spaceTapped: bool, forwardTapped: bool,
                               forwardHeld: bool, backHeld: bool, rightHeld: bool, leftHeld: bool,
                               shiftHeld: bool, ctrlHeld: bool, spaceHeld: bool)

  /** The controls an input state gives: the one-shot taps and the held keys. */
  function ControlsOf(pressed: set<string>, justPressed: set<string>, mouseDX: real, mouseDY: real): Controls
  {
    Controls(mouseDX, mouseDY, "F5" in justPressed, "Space" in justPressed, "KeyW" in justPressed,
             "KeyW" in pressed, "KeyS" in pressed, "KeyD" in pressed, "KeyA" in pressed,
             "ShiftLeft" in pressed || "ShiftRight" in pressed,
             "ControlLeft" in pressed || "ControlRight" in pressed, "Space" in pressed)
  }

  function Abs(r: real): real { if r < 0.0 then -r else r }

  /** `Math.trunc` */
  function Trunc(r: real): int
  {
    if r >= 0.0 then r.Floor else -((-r).Floor)
  }

  /** JavaScript's `a % b` on numbers: the remainder of the quotient truncated towards zero. */
  function JsRem(a: real, b: real): real
    requires b != 0.0
  {
    a - b * Trunc(a / b) as real
  }

  /** `height` */
  function HeightOf(crouching: bool): real
  {
    if crouching then Config.CrouchHeight else Config.StandingHeight
  }

  /** `eyeHeight` */
  function EyeHeightOf(crouching: bool): real
  {
    if crouching then Config.CrouchEyeHeight else Config.EyeHeight
  }

  /** Mouse look: the deltas are clamped to 120 pixels, the yaw is wrapped when huge, the pitch is clamped. */
  function Looked(b: Body, mouseDX: real, mouseDY: real): Body
  {
    var mx := Clamp(mouseDX, -MouseClamp, MouseClamp);
    var my := Clamp(mouseDY, -MouseClamp, MouseClamp);
    var yaw := b.yaw - mx * Config.MouseSensitivity;
    var pitch := b.pitch - my * Config.MouseSensitivity;
    b.(yaw := if Abs(yaw) > YawWrapLimit then JsRem(yaw, Pi * 2.0) else yaw,
       pitch := Clamp(pitch, -HalfPi, HalfPi))
  }

  /** F5: first person, then third person from behind, then from the front, then first person again. */
  function NextCameraMode(m: CameraMode): CameraMode
  {
    match m
    case First => ThirdBack
    case ThirdBack => ThirdFront
    case ThirdFront => First
  }

  /** A Space press at `now`: a double tap toggles fly mode and stops; a single one jumps when walking on the ground. */
  function SpaceTapped(b: Body, now: real): Body
  {
    if now - b.lastSpaceTap < FlyDoubleTapMs then
      b.(flyMode := !b.flyMode, vel := Zero, grounded := false, lastSpaceTap := now)
    else if !b.flyMode && b.grounded then
      b.(vel := b.vel.(y := Config.JumpVelocity), grounded := false, lastSpaceTap := now)
    else
      b.(lastSpaceTap := now)
  }

  /** The crouch flag after this frame: never in fly mode; Shift crouches; standing up needs headroom. */
  function Crouched(flyMode: bool, shift: bool, crouching: bool, standBlocked: bool): bool
  {
    if flyMode then false
    else if shift then true
    else if crouching then standBlocked
    else crouching
  }

  /** The sprint latch: set by a second W press within 250 ms, dropped whenever W is not held. */
  function Latched(b: Body, forwardTapped: bool, forwardHeld: bool, now: real): Body
  {
    var b1 := if forwardTapped then
                b.(sprintLatch := if now - b.lastForwardTap < Config.SprintDoubleTapMs then true else b.sprintLatch,
                   lastForwardTap := now)
              else b;
    if !forwardHeld then b1.(sprintLatch := false) else b1
  }

  function Cross(a: Vec3, b: Vec3): Vec3
  {
    Vec3(a.y * b.z - a.z * b.y, a.z * b.x - a.x * b.z, a.x * b.y - a.y * b.x)
  }

  const Up := Vec3(0.0, 1.0, 0.0)

  /** The horizontal wish direction before normalising: W and S along `forward`, D and A along `right`. */
  function RawWish(c: Controls, forward: Vec3): Vec3
  {
    var right := Cross(forward, Up);
    var w1 := if c.forwardHeld then Add(Zero, forward) else Zero;
    var w2 := if c.backHeld then Sub(w1, forward) else w1;
    var w3 := if c.rightHeld then Add(w2, right) else w2;
    var w4 := if c.leftHeld then Sub(w3, right) else w3;
    w4.(y := 0.0)
  }

  /** `wishDir.normalize()` for the sums of at most two orthogonal unit vectors `RawWish` builds. */
  function Normalized(w: Vec3, invSqrt2: real): Vec3
  {
    if LengthSq(w) == 2.0 then Scale(w, invSqrt2) else w
  }

  function Sprinting(b: Body, ctrl: bool, raw: Vec3): bool
  {
    !b.flyMode && !b.crouching && (ctrl || b.sprintLatch) && LengthSq(raw) > 0.0
  }

  function MaxSpeed(flyMode: bool, crouching: bool, sprinting: bool): real
  {
    if flyMode then FlySpeed else if crouching then CrouchSpeed else if sprinting then SprintSpeed else WalkSpeed
  }

  function AccelOf(flyMode: bool, grounded: bool): real
  {
    if flyMode then FlyAccel else if grounded then GroundAccel else AirAccel
  }

  function FrictionOf(flyMode: bool, grounded: bool): real
  {
    if flyMode then FlyFriction else if grounded then GroundFriction else AirFriction
  }

  /** In fly mode Space adds and Shift subtracts one unit of vertical wish. */
  function FlyWish(flyMode: bool, wish: Vec3, spaceHeld: bool, shift: bool): Vec3
  {
    if !flyMode then wish
    else
      var w1 := if spaceHeld then wish.(y := wish.y + 1.0) else wish;
      if shift then w1.(y := w1.y - 1.0) else w1
  }

  /**
   * The factor ground friction scales the horizontal speed by,
   * `max(0, speed - speed * friction * dt) / speed` for any speed above 0
   * (`FrictionScaleOfSpeed`).
   */
  function FrictionScale(friction: real, dt: real): real
  {
    Max(0.0, 1.0 - friction * dt)
  }

  /** Walking friction on the horizontal velocity; in fly mode nothing happens here. */
  function Friction(vel: Vec3, flyMode: bool, friction: real, dt: real): Vec3
  {
    if !flyMode && (vel.x != 0.0 || vel.z != 0.0) then
      var scale := FrictionScale(friction, dt);
      vel.(x := vel.x * scale, z := vel.z * scale)
    else vel
  }

  /**
   * Acceleration towards the wish direction, limited so that the speed along
   * it does not pass `maxSpeed`; with no wish in fly mode the vertical speed decays.
   */
  function Accelerate(vel: Vec3, wish: Vec3, maxSpeed: real, accel: real, friction: real, flyMode: bool, dt: real): Vec3
  {
    if LengthSq(wish) > 0.0 then
      var addSpeed := maxSpeed - Dot(vel, wish);
      if addSpeed > 0.0 then Add(vel, Scale(wish, Min(accel * dt * maxSpeed, addSpeed))) else vel
    else if flyMode then vel.(y := vel.y - vel.y * friction * dt)
    else vel
  }

  function Gravity(vel: Vec3, flyMode: bool, dt: real): Vec3
  {
    if !flyMode then vel.(y := vel.y - Config.Gravity * dt) else vel
  }

  /** Fly mode clamps every component to the top speed; walking clamps x and z only. */
  function ClampVelocity(vel: Vec3, flyMode: bool, maxSpeed: real, sprinting: bool): Vec3
  {
    if flyMode then
      Vec3(Clamp(vel.x, -maxSpeed, maxSpeed), Clamp(vel.y, -maxSpeed, maxSpeed), Clamp(vel.z, -maxSpeed, maxSpeed))
    else
      var clampH := if sprinting then SprintClamp else WalkClamp;
      vel.(x := Clamp(vel.x, -clampH, clampH), z := Clamp(vel.z, -clampH, clampH))
  }

  /** The mode changes of one frame, in source order: look, camera, Space, crouch, sprint latch. */
  function Oriented(b: Body, c: Controls, spaceNow: real, forwardNow: real, standBlocked: bool): Body
  {
    var b1 := Looked(b, c.mouseDX, c.mouseDY);
    var b2 := if c.f5Tapped then b1.(cameraMode := NextCameraMode(b1.cameraMode)) else b1;
    var b3 := if c.spaceTapped then SpaceTapped(b2, spaceNow) else b2;
    var b4 := b3.(crouching := Crouched(b3.flyMode, c.shiftHeld, b3.crouching, standBlocked));
    Latched(b4, c.forwardTapped, c.forwardHeld, forwardNow)
  }

  /** The velocity of one frame: friction, acceleration, gravity and clamping, with `grounded` cleared. */
  function Steered(b: Body, c: Controls, dt: real, forward: Vec3, invSqrt2: real): Body
  {
    var raw := RawWish(c, forward);
    var sprinting := Sprinting(b, c.ctrlHeld, raw);
    var wish := FlyWish(b.flyMode, if LengthSq(raw) > 0.0 then Normalized(raw, invSqrt2) else raw, c.spaceHeld, c.shiftHeld);
    var maxSpeed := MaxSpeed(b.flyMode, b.crouching, sprinting);
    var friction := FrictionOf(b.flyMode, b.grounded);
    var vel1 := Friction(b.vel, b.flyMode, friction, dt);
    var vel2 := Accelerate(vel1, wish, maxSpeed, AccelOf(b.flyMode, b.grounded), friction, b.flyMode, dt);
    var vel3 := Gravity(vel2, b.flyMode, dt);
    b.(vel := ClampVelocity(vel3, b.flyMode, maxSpeed, sprinting), grounded := false)
  }

  /** Where a fallen player reappears: above the centre column of the world. */
  function SpawnPoint(surface: int): Vec3
  {
    Vec3(Config.WorldWidth as real / 2.0 + 0.5, surface as real + 2.0, Config.WorldDepth as real / 2.0 + 0.5)
  }

  /**
   * After the three axis moves: x and z are kept inside the world, `grounded`
   * is what the Y move reported, and a player below `FallLimit` respawns at rest.
   */
  function Settled(b: Body, moved: Collision.AxisResult, groundHit: bool, surface: int): Body
  {
    var r := Config.PlayerRadius;
    var pos := moved.pos.(x := Clamp(moved.pos.x, r, Config.WorldWidth as real - r),
                          z := Clamp(moved.pos.z, r, Config.WorldDepth as real - r));
    if pos.y < FallLimit then b.(pos := SpawnPoint(surface), vel := Zero, grounded := groundHit)
    else b.(pos := pos, vel := moved.vel, grounded := groundHit)
  }

  predicate StandGuard(k: int) { true }

  /** The standing box at `pos` hits a solid cell: `collidesAt(world, standAabb)`. Kept folded; see `OpenStandBlocked`. */
  ghost predicate StandBlocked(world: VoxelWorld, pos: Vec3)
    requires world.Valid()
    reads world, world.data
  {
    forall k {:trigger StandGuard(k)} :: StandGuard(k) ==>
      exists c :: Collision.SolidHit(world, Collision.PlayerAABB(pos, Config.PlayerRadius, Config.StandingHeight), c)
  }

  lemma OpenStandBlocked(world: VoxelWorld, pos: Vec3)
    requires world.Valid()
    ensures StandBlocked(world, pos) <==>
      exists c :: Collision.SolidHit(world, Collision.PlayerAABB(pos, Config.PlayerRadius, Config.StandingHeight), c)
  {
    assert StandGuard(0);
  }

  class PlayerController {
    var pos: Vec3
    var vel: Vec3
    var yaw: real
    var pitch: real
    var grounded: bool
    var flyMode: bool
    var cameraMode: CameraMode
    var crouching: bool
    var lastSpaceTap: real
    var lastForwardTap: real
    var sprintLatch: bool

    constructor (spawnPos: Vec3)
      ensures State() == Body(spawnPos, Zero, 0.0, 0.0, false, false, First, false, 0.0, 0.0, false)
    {
      pos := spawnPos;
      vel := Zero;
      yaw := 0.0;
      pitch := 0.0;
      grounded := false;
      flyMode := false;
      cameraMode := First;
      crouching := false;
      lastSpaceTap := 0.0;
      lastForwardTap := 0.0;
      sprintLatch := false;
    }

    function State(): Body
      reads this
    {
      Body(pos, vel, yaw, pitch, grounded, flyMode, cameraMode, crouching, lastSpaceTap, lastForwardTap, sprintLatch)
    }

    /** `height` */
    function Height(): real
      reads this
    {
      HeightOf(crouching)
    }

    /** `eyeHeight` */
    function EyeHeight(): real
      reads this
    {
      EyeHeightOf(crouching)
    }

    /** Writes every field from `b`. */
    method Store(b: Body)
      modifies this
      ensures State() == b
    {
      pos, vel, yaw, pitch, grounded, flyMode := b.pos, b.vel, b.yaw, b.pitch, b.grounded, b.flyMode;
      cameraMode, crouching, lastSpaceTap, lastForwardTap, sprintLatch :=
        b.cameraMode, b.crouching, b.lastSpaceTap, b.lastForwardTap, b.sprintLatch;
    }

    /**
     * `update({ dt, input, world })`. The three axis results are returned so
     * that the contract can name them: each is the outcome `collideAxis`
     * guarantees for the position and velocity the previous step left.
     */
    method Update(dt: real, input: Inputs.Input, world: VoxelWorld, spaceNow: real, forwardNow: real,
                  forward: Vec3, invSqrt2: real)
      returns (pre: Body, rx: Collision.AxisResult, ry: Collision.AxisResult, rz: Collision.AxisResult)
      requires world.Valid()
      modifies this, input
      ensures input.pressed == old(input.pressed) && input.pointerLocked == old(input.pointerLocked)
      ensures input.justPressed == old(input.justPressed) - {"F5", "Space", "KeyW"}
      ensures input.mouseDX == 0.0 && input.mouseDY == 0.0
      ensures var c := ControlsOf(old(input.pressed), old(input.justPressed), old(input.mouseDX), old(input.mouseDY));
        Prepared(old(State()), c, spaceNow, forwardNow, old(StandBlocked(world, pos)), dt, forward, invSqrt2, pre)
      ensures old(Moved(world, pre.pos, pre.vel, dt, Config.PlayerRadius, HeightOf(pre.crouching), rx, ry, rz))
    ensures State() == Settled(pre, rz, ry.groundHit, old(world.SurfaceOf(Config.WorldWidth / 2, Config.WorldDepth / 2)))
      ensures Config.PlayerRadius <= pos.x <= Config.WorldWidth as real - Config.PlayerRadius
      ensures Config.PlayerRadius <= pos.z <= Config.WorldDepth as real - Config.PlayerRadius
      ensures grounded == ry.groundHit
      ensures LevelPitch(pitch) && Abs(yaw) <= YawWrapLimit
      ensures crouching ==> !flyMode
    {
      var c := ControlsOf(input.pressed, input.justPressed, input.mouseDX, input.mouseDY);
      var start := State();
      ghost var standBlocked := StandBlocked(world, pos);
      var after;
      pre, after, rx, ry, rz := Frame(world, start, c, dt, spaceNow, forwardNow, forward, invSqrt2);
      assert StandBlocked(world, start.pos) == standBlocked;
      Store(after);
      ConsumeControls(input);
    }
  }

  /** What one `update` computes from the body, the controls and the world, before anything is stored. */
  method Frame(world: VoxelWorld, b: Body, c: Controls, dt: real, spaceNow: real, forwardNow: real,
               forward: Vec3, invSqrt2: real)
    returns (pre: Body, after: Body, rx: Collision.AxisResult, ry: Collision.AxisResult, rz: Collision.AxisResult)
    requires world.Valid()
    ensures Prepared(b, c, spaceNow, forwardNow, StandBlocked(world, b.pos), dt, forward, invSqrt2, pre)
    ensures Moved(world, pre.pos, pre.vel, dt, Config.PlayerRadius, HeightOf(pre.crouching), rx, ry, rz)
    ensures after == Settled(pre, rz, ry.groundHit, world.SurfaceOf(Config.WorldWidth / 2, Config.WorldDepth / 2))
    ensures Config.PlayerRadius <= after.pos.x <= Config.WorldWidth as real - Config.PlayerRadius
    ensures Config.PlayerRadius <= after.pos.z <= Config.WorldDepth as real - Config.PlayerRadius
    ensures after.grounded == ry.groundHit
    ensures LevelPitch(after.pitch) && Abs(after.yaw) <= YawWrapLimit
    ensures after.crouching ==> !after.flyMode
  {
    var blocked := StandCheck(world, b.pos);
    pre := Prepare(b, c, spaceNow, forwardNow, blocked, dt, forward, invSqrt2);
    rx, ry, rz := MoveAxes(world, pre.pos, pre.vel, dt, Config.PlayerRadius, HeightOf(pre.crouching));
    after := Settle(world, pre, rz, ry.groundHit);
    FrameRules(b, c, spaceNow, forwardNow, blocked, dt, forward, invSqrt2, pre,
               rz, ry.groundHit, world.SurfaceOf(Config.WorldWidth / 2, Config.WorldDepth / 2));
    assert blocked == StandBlocked(world, b.pos);
  }

  /** `collidesAt(world, standAabb)` for the standing box at `pos`. */
  method StandCheck(world: VoxelWorld, pos: Vec3) returns (blocked: bool)
    requires world.Valid()
    ensures blocked == StandBlocked(world, pos)
  {
    blocked := Collision.CollidesAt(world, Collision.PlayerAABB(pos, Config.PlayerRadius, Config.StandingHeight));
    OpenStandBlocked(world, pos);
  }

  predicate PrepareGuard(k: int) { true }

  /**
   * `s` is the body after the mode changes and the velocity step of one
   * frame, `Steered(Oriented(b, ...), ...)`. The definition is kept behind
   * `PrepareGuard` so that a caller does not expand the arithmetic;
   * `OpenPrepared` gives it back.
   */
  ghost predicate Prepared(b: Body, c: Controls, spaceNow: real, forwardNow: real, standBlocked: bool,
                           dt: real, forward: Vec3, invSqrt2: real, s: Body)
  {
    forall k {:trigger PrepareGuard(k)} :: PrepareGuard(k) ==>
      s == Steered(Oriented(b, c, spaceNow, forwardNow, standBlocked), c, dt, forward, invSqrt2)
  }

  lemma OpenPrepared(b: Body, c: Controls, spaceNow: real, forwardNow: real, standBlocked: bool,
                     dt: real, forward: Vec3, invSqrt2: real, s: Body)
    requires Prepared(b, c, spaceNow, forwardNow, standBlocked, dt, forward, invSqrt2, s)
    ensures s == Steered(Oriented(b, c, spaceNow, forwardNow, standBlocked), c, dt, forward, invSqrt2)
  {
    assert PrepareGuard(0);
  }

  /** Lines 42-147 of `update`: look, camera, fly, jump, crouch, sprint and the new velocity. */
  method Prepare(b: Body, c: Controls, spaceNow: real, forwardNow: real, standBlocked: bool,
                 dt: real, forward: Vec3, invSqrt2: real) returns (s: Body)
    ensures Prepared(b, c, spaceNow, forwardNow, standBlocked, dt, forward, invSqrt2, s)
    ensures ReadyToMove(b, c, s)
  {
    s := Steered(Oriented(b, c, spaceNow, forwardNow, standBlocked), c, dt, forward, invSqrt2);
    PrepareRules(b, c, spaceNow, forwardNow, standBlocked, dt, forward, invSqrt2);
  }

  /** The one-shot reads `update` makes of the input: the mouse delta and the F5, Space and W presses. */
  method ConsumeControls(input: Inputs.Input)
    modifies input
    ensures input.pressed == old(input.pressed) && input.pointerLocked == old(input.pointerLocked)
    ensures input.justPressed == old(input.justPressed) - {"F5", "Space", "KeyW"}
    ensures input.mouseDX == 0.0 && input.mouseDY == 0.0
  {
    var mx, my := input.ConsumeMouseDelta();
    var f5 := input.ConsumePressed("F5");
    var space := input.ConsumePressed("Space");
    var wTapped := input.ConsumePressed("KeyW");
  }

  /** Lines 161-178 of `update`: the ground callback, the world clamp and the respawn. */
  method Settle(world: VoxelWorld, b: Body, moved: Collision.AxisResult, groundHit: bool) returns (after: Body)
    requires world.Valid()
    ensures after == Settled(b, moved, groundHit, world.SurfaceOf(Config.WorldWidth / 2, Config.WorldDepth / 2))
  {
    var radius := Config.PlayerRadius;
    var p := moved.pos;
    p := p.(x := Clamp(p.x, radius, Config.WorldWidth as real - radius));
    p := p.(z := Clamp(p.z, radius, Config.WorldDepth as real - radius));
    var v := moved.vel;
    if p.y < FallLimit {
      var surface := world.SurfaceY(Config.WorldWidth / 2, Config.WorldDepth / 2);
      p := SpawnPoint(surface);
      v := Zero;
    }
    after := b.(pos := p, vel := v, grounded := groundHit);
  }

  predicate MoveGuard(k: int) { true }

  /**
   * The three `collideAxis` calls of `update`: x, then y from where x left
   * the box, then z; each move's amount is the velocity left by the previous
   * one times `dt`. Kept folded like `Prepared`; `OpenMoved` unfolds it.
   */
  ghost predicate Moved(world: VoxelWorld, pos: Vec3, vel: Vec3, dt: real, radius: real, height: real,
                        rx: Collision.AxisResult, ry: Collision.AxisResult, rz: Collision.AxisResult)
    requires world.Valid()
    reads world, world.data
  {
    forall k {:trigger MoveGuard(k)} :: MoveGuard(k) ==>
      && Collision.AxisResolved(world, pos, vel, X, vel.x * dt, radius, height, rx)
      && Collision.AxisResolved(world, rx.pos, rx.vel, Y, rx.vel.y * dt, radius, height, ry)
      && Collision.AxisResolved(world, ry.pos, ry.vel, Z, ry.vel.z * dt, radius, height, rz)
  }

  lemma OpenMoved(world: VoxelWorld, pos: Vec3, vel: Vec3, dt: real, radius: real, height: real,
                  rx: Collision.AxisResult, ry: Collision.AxisResult, rz: Collision.AxisResult)
    requires world.Valid()
    requires Moved(world, pos, vel, dt, radius, height, rx, ry, rz)
    ensures Collision.AxisResolved(world, pos, vel, X, vel.x * dt, radius, height, rx)
    ensures Collision.AxisResolved(world, rx.pos, rx.vel, Y, rx.vel.y * dt, radius, height, ry)
    ensures Collision.AxisResolved(world, ry.pos, ry.vel, Z, ry.vel.z * dt, radius, height, rz)
  {
    assert MoveGuard(0);
  }

  /** The moves along x, y and z of `update`. */
  method MoveAxes(world: VoxelWorld, pos: Vec3, vel: Vec3, dt: real, radius: real, height: real)
    returns (rx: Collision.AxisResult, ry: Collision.AxisResult, rz: Collision.AxisResult)
    requires world.Valid()
    ensures Moved(world, pos, vel, dt, radius, height, rx, ry, rz)
  {
    rx := Collision.CollideAxis(world, pos, vel, X, vel.x * dt, radius, height);
    ry := Collision.CollideAxis(world, rx.pos, rx.vel, Y, rx.vel.y * dt, radius, height);
    rz := Collision.CollideAxis(world, ry.pos, ry.vel, Z, ry.vel.z * dt, radius, height);
  }

  // Properties of one frame.

  /** JavaScript's remainder by a full turn lies strictly within one turn of 0 and keeps the sign of `a`. */
  lemma TurnRemBounds(a: real)
    ensures -Pi * 2.0 < JsRem(a, Pi * 2.0) < Pi * 2.0
    ensures a >= 0.0 ==> JsRem(a, Pi * 2.0) >= 0.0
    ensures a <= 0.0 ==> JsRem(a, Pi * 2.0) <= 0.0
  {
    TruncBounds(a / (Pi * 2.0));
  }

  /** `Math.trunc` is within one of its argument, on the side of 0. */
  lemma TruncBounds(q: real)
    ensures q >= 0.0 ==> 0.0 <= Trunc(q) as real <= q < Trunc(q) as real + 1.0
    ensures q < 0.0 ==> Trunc(q) as real - 1.0 < q <= Trunc(q) as real <= 0.0
  {
  }

  /** Mouse look keeps the pitch within a quarter turn up or down, and turns the yaw by at most 0.3 radians before any wrap. */
  lemma LookBounds(b: Body, mouseDX: real, mouseDY: real)
    ensures var after := Looked(b, mouseDX, mouseDY);
      && LevelPitch(after.pitch)
      && (Abs(b.yaw - MouseClamp * Config.MouseSensitivity) <= YawWrapLimit &&
          Abs(b.yaw + MouseClamp * Config.MouseSensitivity) <= YawWrapLimit ==>
            Abs(after.yaw - b.yaw) <= MouseClamp * Config.MouseSensitivity)
      && Abs(after.yaw) <= YawWrapLimit
      && after.(yaw := b.yaw, pitch := b.pitch) == b
  {
    var mx := Clamp(mouseDX, -MouseClamp, MouseClamp);
    var yaw := b.yaw - mx * Config.MouseSensitivity;
    if Abs(yaw) > YawWrapLimit {
      TurnRemBounds(yaw);
    }
  }

  /** F5 cycles through the three camera modes: every press changes the mode, and three presses come back. */
  lemma CameraCycle(m: CameraMode)
    ensures NextCameraMode(m) != m && NextCameraMode(NextCameraMode(m)) != m
    ensures NextCameraMode(NextCameraMode(NextCameraMode(m))) == m
  {
  }

  /**
   * A Space press: within 300 ms of the previous one it toggles fly mode and
   * stops the player; otherwise it jumps exactly when walking on the ground.
   * Either way the press time is recorded and nothing else changes.
   */
  lemma SpaceTapRules(b: Body, now: real)
    ensures var a := SpaceTapped(b, now);
      && a.lastSpaceTap == now
      && (now - b.lastSpaceTap < FlyDoubleTapMs ==>
            a.flyMode == !b.flyMode && a.vel == Zero && !a.grounded)
      && (now - b.lastSpaceTap >= FlyDoubleTapMs ==> a.flyMode == b.flyMode)
      && (now - b.lastSpaceTap >= FlyDoubleTapMs && !b.flyMode && b.grounded ==>
            a.vel == b.vel.(y := Config.JumpVelocity) && !a.grounded)
      && (now - b.lastSpaceTap >= FlyDoubleTapMs && !(!b.flyMode && b.grounded) ==>
            a.vel == b.vel && a.grounded == b.grounded)
      && a.(flyMode := b.flyMode, vel := b.vel, grounded := b.grounded, lastSpaceTap := b.lastSpaceTap) == b
  {
  }

  /** The player crouches exactly when walking and either Shift is held or a crouching player has no room to stand. */
  lemma CrouchRule(flyMode: bool, shift: bool, crouching: bool, standBlocked: bool)
    ensures Crouched(flyMode, shift, crouching, standBlocked) <==> !flyMode && (shift || (crouching && standBlocked))
  {
  }

  /**
   * The sprint latch is on after a frame exactly when W is held and the latch
   * was on before or W was pressed again within 250 ms; a W press records its time.
   */
  lemma LatchRule(b: Body, forwardTapped: bool, forwardHeld: bool, now: real)
    ensures var a := Latched(b, forwardTapped, forwardHeld, now);
      && (a.sprintLatch <==> forwardHeld && (b.sprintLatch || (forwardTapped && now - b.lastForwardTap < Config.SprintDoubleTapMs)))
      && a.lastForwardTap == (if forwardTapped then now else b.lastForwardTap)
      && a.(sprintLatch := b.sprintLatch, lastForwardTap := b.lastForwardTap) == b
  {
  }

  /**
   * Mode changes never move the player, and only a Space press touches the
   * velocity or the fly mode; the pitch stays within a quarter turn and the
   * yaw within the wrap limit, and a crouching player never flies.
   */
  lemma OrientedKeepsPosition(b: Body, c: Controls, spaceNow: real, forwardNow: real, standBlocked: bool)
    ensures Oriented(b, c, spaceNow, forwardNow, standBlocked).pos == b.pos
    ensures LevelPitch(Oriented(b, c, spaceNow, forwardNow, standBlocked).pitch)
    ensures Abs(Oriented(b, c, spaceNow, forwardNow, standBlocked).yaw) <= YawWrapLimit
    ensures !c.spaceTapped ==> Oriented(b, c, spaceNow, forwardNow, standBlocked).vel == b.vel
    ensures !c.spaceTapped ==> Oriented(b, c, spaceNow, forwardNow, standBlocked).flyMode == b.flyMode
    ensures Oriented(b, c, spaceNow, forwardNow, standBlocked).crouching ==> !Oriented(b, c, spaceNow, forwardNow, standBlocked).flyMode
  {
    var b1 := Looked(b, c.mouseDX, c.mouseDY);
    LookBounds(b, c.mouseDX, c.mouseDY);
    var b2 := if c.f5Tapped then b1.(cameraMode := NextCameraMode(b1.cameraMode)) else b1;
    var b3 := if c.spaceTapped then SpaceTapped(b2, spaceNow) else b2;
    SpaceTapRules(b2, spaceNow);
    CrouchRule(b3.flyMode, c.shiftHeld, b3.crouching, standBlocked);
    var b4 := b3.(crouching := Crouched(b3.flyMode, c.shiftHeld, b3.crouching, standBlocked));
    LatchRule(b4, c.forwardTapped, c.forwardHeld, forwardNow);
  }

  /**
   * The body `update` hands to the axis moves: still where the frame began,
   * no longer grounded, the pitch within a quarter turn, the yaw within the
   * wrap limit, never crouching in fly mode, and in fly mode only as before
   * unless Space was pressed.
   */
  predicate ReadyToMove(b: Body, c: Controls, s: Body)
  {
    && s.pos == b.pos
    && !s.grounded
    && LevelPitch(s.pitch)
    && Abs(s.yaw) <= YawWrapLimit
    && (s.crouching ==> !s.flyMode)
    && (!c.spaceTapped ==> s.flyMode == b.flyMode)
  }

  /** The mode changes and the velocity step of a frame leave the body ready to move. */
  lemma PrepareRules(b: Body, c: Controls, spaceNow: real, forwardNow: real, standBlocked: bool,
                     dt: real, forward: Vec3, invSqrt2: real)
    ensures ReadyToMove(b, c, Steered(Oriented(b, c, spaceNow, forwardNow, standBlocked), c, dt, forward, invSqrt2))
  {
    var o := Oriented(b, c, spaceNow, forwardNow, standBlocked);
    assert && o.pos == b.pos && LevelPitch(o.pitch) && Abs(o.yaw) <= YawWrapLimit
           && (o.crouching ==> !o.flyMode) && (!c.spaceTapped ==> o.flyMode == b.flyMode) by {
      OrientedKeepsPosition(b, c, spaceNow, forwardNow, standBlocked);
    }
    SteeredKeepsLook(o, c, dt, forward, invSqrt2);
  }

  /** `PrepareRules` for a body known only through `Prepared`. */
  lemma PreparedRules(b: Body, c: Controls, spaceNow: real, forwardNow: real, standBlocked: bool,
                      dt: real, forward: Vec3, invSqrt2: real, s: Body)
    requires Prepared(b, c, spaceNow, forwardNow, standBlocked, dt, forward, invSqrt2, s)
    ensures ReadyToMove(b, c, s)
  {
    OpenPrepared(b, c, spaceNow, forwardNow, standBlocked, dt, forward, invSqrt2, s);
    PrepareRules(b, c, spaceNow, forwardNow, standBlocked, dt, forward, invSqrt2);
  }

  /** `SteeredKeepsRest` field by field, for the fields the frame rules speak of. */
  lemma SteeredKeepsLook(b: Body, c: Controls, dt: real, forward: Vec3, invSqrt2: real)
    ensures var a := Steered(b, c, dt, forward, invSqrt2);
      && !a.grounded && a.pos == b.pos && a.pitch == b.pitch && a.yaw == b.yaw
      && a.crouching == b.crouching && a.flyMode == b.flyMode
  {
  }

  /**
   * One whole frame: for the body `s` that the mode changes and the velocity
   * step make of `b`, after the moves and the clamp the player is inside the
   * world horizontally, grounded exactly when the Y move hit ground, looking
   * within a quarter turn of the horizon, and never crouching in fly mode.
   */
  lemma FrameRules(b: Body, c: Controls, spaceNow: real, forwardNow: real, standBlocked: bool,
                   dt: real, forward: Vec3, invSqrt2: real, s: Body,
                   moved: Collision.AxisResult, groundHit: bool, surface: int)
    requires Prepared(b, c, spaceNow, forwardNow, standBlocked, dt, forward, invSqrt2, s)
    ensures var a := Settled(s, moved, groundHit, surface);
      var r := Config.PlayerRadius;
      && r <= a.pos.x <= Config.WorldWidth as real - r
      && r <= a.pos.z <= Config.WorldDepth as real - r
      && a.grounded == groundHit
      && LevelPitch(a.pitch)
      && Abs(a.yaw) <= YawWrapLimit
      && (a.crouching ==> !a.flyMode)
  {
    PreparedRules(b, c, spaceNow, forwardNow, standBlocked, dt, forward, invSqrt2, s);
    SettledKeepsLook(s, moved, groundHit, surface);
  }

  /** `SettledRules` for the clamp, the ground flag and the fields the frame rules speak of. */
  lemma SettledKeepsLook(b: Body, moved: Collision.AxisResult, groundHit: bool, surface: int)
    ensures var a := Settled(b, moved, groundHit, surface);
      var r := Config.PlayerRadius;
      && r <= a.pos.x <= Config.WorldWidth as real - r
      && r <= a.pos.z <= Config.WorldDepth as real - r
      && a.grounded == groundHit
      && a.pitch == b.pitch && a.yaw == b.yaw && a.crouching == b.crouching && a.flyMode == b.flyMode
  {
  }

  /** Sprinting needs the player on foot, standing, and steering. */
  lemma SprintOnlyOnFoot(b: Body, ctrl: bool, raw: Vec3)
    ensures Sprinting(b, ctrl, raw) <==> !b.flyMode && !b.crouching && (ctrl || b.sprintLatch) && LengthSq(raw) > 0.0
    ensures Sprinting(b, ctrl, raw) ==> MaxSpeed(b.flyMode, b.crouching, true) == SprintSpeed
  {
  }

  /**
   * Crouching is slower than walking, walking than sprinting, sprinting than
   * flying; every top speed, acceleration and friction is positive, and on foot
   * the horizontal clamp never cuts below the top speed.
   */
  lemma SpeedRules(flyMode: bool, crouching: bool, sprinting: bool, grounded: bool)
    ensures MaxSpeed(false, true, sprinting) < MaxSpeed(false, false, false) < MaxSpeed(false, false, true) < MaxSpeed(true, crouching, sprinting)
    ensures MaxSpeed(flyMode, crouching, sprinting) > 0.0
    ensures AccelOf(flyMode, grounded) > 0.0 && FrictionOf(flyMode, grounded) > 0.0
    ensures !flyMode ==> MaxSpeed(flyMode, crouching, sprinting) <= if sprinting then SprintClamp else WalkClamp
  {
  }

  /**
   * The source scales by `max(0, speed - speed * friction * dt) / speed`; for
   * every speed above 0 that is `FrictionScale`, which lies in [0, 1] when
   * `friction * dt` is not negative.
   */
  lemma FrictionScaleOfSpeed(speed: real, friction: real, dt: real)
    requires speed > 0.0
    ensures Max(0.0, speed - speed * friction * dt) / speed == FrictionScale(friction, dt)
    ensures friction * dt >= 0.0 ==> 0.0 <= FrictionScale(friction, dt) <= 1.0
  {
    var m := 1.0 - friction * dt;
    assert speed - speed * friction * dt == speed * m;
    ProductSign(speed, m);
    if m > 0.0 {
      DivBack(speed, m);
    }
  }

  lemma ProductSign(s: real, m: real)
    requires s > 0.0
    ensures m > 0.0 ==> s * m > 0.0
    ensures m <= 0.0 ==> s * m <= 0.0
  {
  }

  lemma DivBack(s: real, m: real)
    requires s > 0.0
    ensures (s * m) / s == m
  {
  }

  /** Walking friction keeps the direction of the horizontal velocity and does not speed it up. */
  lemma FrictionSlows(vel: Vec3, flyMode: bool, friction: real, dt: real)
    requires friction * dt >= 0.0
    ensures var v := Friction(vel, flyMode, friction, dt);
      && v.y == vel.y
      && v.x * v.x + v.z * v.z <= vel.x * vel.x + vel.z * vel.z
      && (flyMode ==> v == vel)
  {
    var v := Friction(vel, flyMode, friction, dt);
    if !flyMode && (vel.x != 0.0 || vel.z != 0.0) {
      var s := FrictionScale(friction, dt);
      assert 0.0 <= s <= 1.0;
      assert v == Vec3(vel.x * s, vel.y, vel.z * s);
      SumShrinks(vel.x, vel.z, s);
    }
  }

  lemma SumShrinks(x: real, z: real, s: real)
    requires 0.0 <= s <= 1.0
    ensures (x * s) * (x * s) + (z * s) * (z * s) <= x * x + z * z
  {
    SquareShrinks(x, s);
    SquareShrinks(z, s);
  }

  lemma SquareShrinks(x: real, s: real)
    requires 0.0 <= s <= 1.0
    ensures (x * s) * (x * s) <= x * x
  {
    assert (x * s) * (x * s) == (x * x) * (s * s);
    assert s * s <= 1.0 by {
      assert s * s <= s * 1.0;
    }
    assert (x * x) * (s * s) <= (x * x) * 1.0;
  }

  lemma DotAddScaled(v: Vec3, w: Vec3, k: real)
    ensures Dot(Add(v, Scale(w, k)), w) == Dot(v, w) + k * LengthSq(w)
  {
  }

  /**
   * Acceleration along a unit wish direction never takes the speed along it
   * past `maxSpeed`, and never lowers it; when the speed along it is already
   * `maxSpeed` or more the velocity is unchanged.
   */
  lemma AccelerateLimit(vel: Vec3, wish: Vec3, maxSpeed: real, accel: real, friction: real, flyMode: bool, dt: real)
    requires LengthSq(wish) == 1.0
    requires accel * dt * maxSpeed >= 0.0
    ensures var v := Accelerate(vel, wish, maxSpeed, accel, friction, flyMode, dt);
      && Dot(v, wish) <= Max(Dot(vel, wish), maxSpeed)
      && Dot(v, wish) >= Dot(vel, wish)
      && (Dot(vel, wish) >= maxSpeed ==> v == vel)
  {
    var addSpeed := maxSpeed - Dot(vel, wish);
    if addSpeed > 0.0 {
      var k := Min(accel * dt * maxSpeed, addSpeed);
      DotAddScaled(vel, wish, k);
    }
  }

  /**
   * The wish direction `update` accelerates along is a unit vector whenever a
   * key steers, on foot, and in fly mode unless exactly one of Space and Shift
   * is held; there `AccelerateLimit` bounds the speed along it.
   */
  lemma SteeringAccelerateLimit(c: Controls, forward: Vec3, invSqrt2: real, flyMode: bool,
                                vel: Vec3, maxSpeed: real, accel: real, friction: real, dt: real)
    requires forward.y == 0.0 && LengthSq(forward) == 1.0
    requires 2.0 * (invSqrt2 * invSqrt2) == 1.0
    requires LengthSq(RawWish(c, forward)) > 0.0
    requires !flyMode || c.spaceHeld == c.shiftHeld
    requires accel * dt * maxSpeed >= 0.0
    ensures var wish := FlyWish(flyMode, Normalized(RawWish(c, forward), invSqrt2), c.spaceHeld, c.shiftHeld);
      var v := Accelerate(vel, wish, maxSpeed, accel, friction, flyMode, dt);
      && LengthSq(wish) == 1.0
      && Dot(vel, wish) <= Dot(v, wish) <= Max(Dot(vel, wish), maxSpeed)
  {
    var n := Normalized(RawWish(c, forward), invSqrt2);
    WishDirUnit(c, forward, invSqrt2);
    assert FlyWish(flyMode, n, c.spaceHeld, c.shiftHeld) == n;
    AccelerateLimit(vel, n, maxSpeed, accel, friction, flyMode, dt);
  }

  /**
   * In fly mode with Space held the vertical unit is added after normalising,
   * so the wish has squared length 2 and one step from rest reaches twice the
   * top speed along it; only the per-component clamp that follows bounds it.
   */
  lemma FlyClimbOvershoots()
    ensures var wish := FlyWish(true, Vec3(1.0, 0.0, 0.0), true, false);
      var v := Accelerate(Zero, wish, FlySpeed, FlyAccel, 10.0, true, 0.05);
      && wish == Vec3(1.0, 1.0, 0.0) && LengthSq(wish) == 2.0
      && v == Vec3(12.0, 12.0, 0.0)
      && Dot(v, wish) == 2.0 * FlySpeed > Max(Dot(Zero, wish), FlySpeed)
      && ClampVelocity(v, true, FlySpeed, false) == v
  {
  }

  /** In fly mode every component ends within the top speed; on foot x and z within the horizontal clamp, and y is untouched. */
  lemma ClampBounds(vel: Vec3, flyMode: bool, maxSpeed: real, sprinting: bool)
    requires maxSpeed >= 0.0
    ensures var v := ClampVelocity(vel, flyMode, maxSpeed, sprinting);
      && (flyMode ==> Abs(v.x) <= maxSpeed && Abs(v.y) <= maxSpeed && Abs(v.z) <= maxSpeed)
      && (!flyMode ==>
            && v.y == vel.y
            && Abs(v.x) <= (if sprinting then SprintClamp else WalkClamp)
            && Abs(v.z) <= (if sprinting then SprintClamp else WalkClamp))
  {
  }

  /** The velocity step changes the velocity and clears `grounded`, and nothing else. */
  lemma SteeredKeepsRest(b: Body, c: Controls, dt: real, forward: Vec3, invSqrt2: real)
    ensures var a := Steered(b, c, dt, forward, invSqrt2);
      !a.grounded && a.(vel := b.vel, grounded := b.grounded) == b
  {
  }

  /**
   * With `forward` a horizontal unit vector and `invSqrt2` squared equal to
   * one half, the wish direction is horizontal, of squared length 0, 1 or 2
   * before normalising and of length 1 after it whenever a key steers.
   */
  lemma WishDirUnit(c: Controls, forward: Vec3, invSqrt2: real)
    requires forward.y == 0.0 && LengthSq(forward) == 1.0
    requires 2.0 * (invSqrt2 * invSqrt2) == 1.0
    ensures var raw := RawWish(c, forward);
      && raw.y == 0.0
      && (LengthSq(raw) == 0.0 || LengthSq(raw) == 1.0 || LengthSq(raw) == 2.0)
      && (LengthSq(raw) > 0.0 ==> LengthSq(Normalized(raw, invSqrt2)) == 1.0)
  {
    var raw := RawWish(c, forward);
    RawWishLength(c, forward);
    if LengthSq(raw) == 2.0 {
      ScaledLength(raw, invSqrt2);
    }
  }

  /** The raw wish is a sum of at most one of `forward`, `-forward` and at most one of `right`, `-right`. */
  lemma RawWishLength(c: Controls, forward: Vec3)
    requires forward.y == 0.0 && LengthSq(forward) == 1.0
    ensures RawWish(c, forward).y == 0.0
    ensures var l := LengthSq(RawWish(c, forward)); l == 0.0 || l == 1.0 || l == 2.0
  {
    var along := c.forwardHeld != c.backHeld;
    var across := c.rightHeld != c.leftHeld;
    if !along && !across {
      WishStill(c, forward);
    } else if !across {
      WishStraight(c, forward);
    } else if !along {
      WishSideways(c, forward);
    } else {
      WishDiagonal(c, forward);
    }
  }

  lemma WishStill(c: Controls, forward: Vec3)
    requires c.forwardHeld == c.backHeld && c.rightHeld == c.leftHeld
    ensures LengthSq(RawWish(c, forward)) == 0.0
  {
    assert RawWish(c, forward) == Zero;
  }

  lemma WishStraight(c: Controls, forward: Vec3)
    requires forward.y == 0.0 && LengthSq(forward) == 1.0
    requires c.forwardHeld != c.backHeld && c.rightHeld == c.leftHeld
    ensures LengthSq(RawWish(c, forward)) == 1.0
  {
    var fx, fz := forward.x, forward.z;
    if c.forwardHeld {
      assert RawWish(c, forward) == Vec3(fx, 0.0, fz);
    } else {
      assert RawWish(c, forward) == Vec3(-fx, 0.0, -fz);
    }
  }

  lemma WishSideways(c: Controls, forward: Vec3)
    requires forward.y == 0.0 && LengthSq(forward) == 1.0
    requires c.forwardHeld == c.backHeld && c.rightHeld != c.leftHeld
    ensures LengthSq(RawWish(c, forward)) == 1.0
  {
    var fx, fz := forward.x, forward.z;
    assert Cross(forward, Up) == Vec3(-fz, 0.0, fx);
    if c.rightHeld {
      assert RawWish(c, forward) == Vec3(-fz, 0.0, fx);
    } else {
      assert RawWish(c, forward) == Vec3(fz, 0.0, -fx);
    }
  }

  lemma WishDiagonal(c: Controls, forward: Vec3)
    requires forward.y == 0.0 && LengthSq(forward) == 1.0
    requires c.forwardHeld != c.backHeld && c.rightHeld != c.leftHeld
    ensures LengthSq(RawWish(c, forward)) == 2.0
  {
    assert Cross(forward, Up) == Vec3(-forward.z, 0.0, forward.x);
    if c.forwardHeld {
      WishDiagonalForward(c, forward);
    } else {
      WishDiagonalBack(c, forward);
    }
  }

  lemma WishDiagonalForward(c: Controls, forward: Vec3)
    requires forward.y == 0.0 && LengthSq(forward) == 1.0
    requires c.forwardHeld && !c.backHeld && c.rightHeld != c.leftHeld
    requires Cross(forward, Up) == Vec3(-forward.z, 0.0, forward.x)
    ensures LengthSq(RawWish(c, forward)) == 2.0
  {
    var fx, fz := forward.x, forward.z;
    if c.rightHeld {
      assert RawWish(c, forward) == Vec3(fx - fz, 0.0, fz + fx);
      Diagonal(fx, -fz, fz, fx);
    } else {
      assert RawWish(c, forward) == Vec3(fx + fz, 0.0, fz - fx);
      Diagonal(fx, fz, fz, -fx);
    }
  }

  lemma WishDiagonalBack(c: Controls, forward: Vec3)
    requires forward.y == 0.0 && LengthSq(forward) == 1.0
    requires !c.forwardHeld && c.backHeld && c.rightHeld != c.leftHeld
    requires Cross(forward, Up) == Vec3(-forward.z, 0.0, forward.x)
    ensures LengthSq(RawWish(c, forward)) == 2.0
  {
    var fx, fz := forward.x, forward.z;
    if c.rightHeld {
      assert RawWish(c, forward) == Vec3(-fx - fz, 0.0, -fz + fx);
      Diagonal(-fx, -fz, -fz, fx);
    } else {
      assert RawWish(c, forward) == Vec3(-fx + fz, 0.0, -fz - fx);
      Diagonal(-fx, fz, -fz, -fx);
    }
  }

  /** `(p + q, r + s)` with `(p, r)` and `(q, s)` orthogonal unit vectors has squared length 2. */
  lemma Diagonal(p: real, q: real, r: real, s: real)
    requires p * p + r * r == 1.0 && q * q + s * s == 1.0 && p * q + r * s == 0.0
    ensures (p + q) * (p + q) + (r + s) * (r + s) == 2.0
  {
  }

  lemma ScaledLength(v: Vec3, k: real)
    ensures LengthSq(Scale(v, k)) == (k * k) * LengthSq(v)
  {
  }

  /**
   * After the axis moves the player is inside the world horizontally, grounded
   * exactly when the Y move hit ground, and either where the moves left it or,
   * below the fall limit, at rest at the spawn point two cells above the
   * centre column's surface. The modes and the look direction are untouched.
   */
  lemma SettledRules(b: Body, moved: Collision.AxisResult, groundHit: bool, surface: int)
    ensures var a := Settled(b, moved, groundHit, surface);
      var r := Config.PlayerRadius;
      && r <= a.pos.x <= Config.WorldWidth as real - r
      && r <= a.pos.z <= Config.WorldDepth as real - r
      && a.grounded == groundHit
      && (moved.pos.y < FallLimit ==> a.pos == SpawnPoint(surface) && a.vel == Zero)
      && (moved.pos.y >= FallLimit ==> a.pos.y == moved.pos.y && a.vel == moved.vel)
      && SpawnPoint(surface).y == surface as real + 2.0
      && a.(pos := b.pos, vel := b.vel, grounded := b.grounded) == b
  {
  }

  /** The eye is below the top of the box, standing or crouching, and crouching lowers both. */
  lemma EyeBelowTop(crouching: bool)
    ensures 0.0 < EyeHeightOf(crouching) < HeightOf(crouching)
    ensures HeightOf(true) < HeightOf(false) && EyeHeightOf(true) < EyeHeightOf(false)
  {
  }
}
