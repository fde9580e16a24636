/** The tuning constants of the sandbox (src/config.ts). */
module Config {

  // WORLD
  const WorldWidth: nat := 64
  const WorldDepth: nat := 64
  const WorldHeight: nat := 32

  // PHYSICS
  const Gravity: real := 24.0
  const JumpVelocity: real := 9.5

  // PLAYER
  const PlayerRadius: real := 0.35
  const StandingHeight: real := 1.8
  const CrouchHeight: real := 1.45
  const EyeHeight: real := 1.75
  const CrouchEyeHeight: real := 1.3

  // CAMERA
  const ThirdPersonDistance: real := 3.6
  const ThirdPersonHeight: real := 1.3
  const ThirdPersonMinDistance: real := 0.25

  // INPUT
  const MouseSensitivity: real := 0.0025
  const SprintDoubleTapMs: real := 250.0

  /** The relations between the constants that the rest of the game relies on. */
  lemma ConstantsAreConsistent()
    ensures CrouchHeight < StandingHeight
    ensures EyeHeight < StandingHeight && CrouchEyeHeight < CrouchHeight
    ensures ThirdPersonMinDistance < ThirdPersonDistance
    ensures 2.0 * PlayerRadius < 1.0
    ensures WorldWidth == 64 && WorldHeight == 32 && WorldDepth == 64
  {
  }
}
