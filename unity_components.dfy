/**
 * The engine components the controller scripts write to: the `Animator`
 * (its named parameters and its `applyRootMotion` switch) and the
 * `CharacterController`, whose `Move` calls are recorded as the list of
 * requested displacements.
 */
module UnityComponents {
  import opened UnityMath

  /**
   * The animator parameters published by the locomotion, one field per
   * parameter name (`Speed`, `VerticalSpeed`, `MoveInputMag`, `MoveInputX`,
   * `MoveInputY`, `IsRunning`, `IsCrouching`, `IsGrounded`, `DoubleJumped`,
   * the `Jump` trigger and `MoveInputDot`).
   */
  datatype AnimatorParams = AnimatorParams(
    speed: real,
    verticalSpeed: real,
    moveInputMag: real,
    moveInputX: real,
    moveInputY: real,
    isRunning: bool,
    isCrouching: bool,
    isGrounded: bool,
    doubleJumped: bool,
    jump: bool,
    moveInputDot: real)

  class Animator {
    var parameters: AnimatorParams
    var applyRootMotion: bool

    constructor (parameters: AnimatorParams, applyRootMotion: bool)
      ensures this.parameters == parameters && this.applyRootMotion == applyRootMotion
    {
      this.parameters := parameters;
      this.applyRootMotion := applyRootMotion;
    }
  }

  class CharacterController {
    /** Every displacement passed to `Move`, oldest first. */
    var moves: seq<Vec3>

    constructor ()
      ensures moves == []
    {
      moves := [];
    }

    method Move(motion: Vec3)
      modifies this
      ensures moves == old(moves) + [motion]
    {
      moves := moves + [motion];
    }
  }
}
