/**
 * `MovementBehavior`: the per-frame locomotion tick of the character. Each
 * tick reads the ground sensor once, turns the character toward the
 * camera-relative input direction, smooths its speed toward a target picked
 * by the run > crouch > walk rule, runs the jump / double-jump / landing
 * sequence with gravity, moves the character controller twice (horizontal,
 * then vertical) and publishes the animator parameters.
 *
 * The tick is specified by pure functions over a `Frame` (the behaviour's
 * fields, the shared input flags, the animator parameters and the list of
 * `Move` requests); the class at the end runs the same steps on mutable
 * fields and is proved to agree with them.
 */
module Movement {
  import opened UnityMath
  import opened UnityComponents
  import opened Input

  /** The behaviour's public tuning fields. */
  datatype MovementConfig = MovementConfig(
    walkSpeed: real,
    runSpeed: real,
    crouchSpeed: real,
    speedSmoothTime: real,
    turnSmoothTime: real,
    jumpForce: real,
    gravity: real)

  /** The fields' initialisers. */
  const DefaultMovementConfig := MovementConfig(3.0, 6.0, 1.5, 0.2, 0.2, 8.0, -9.81)

  /** A smoothed value and the smoothing filter's new velocity. */
  datatype Damped = Damped(value: real, velocity: real)

  /**
   * The engine math the tick calls and the model leaves open: any functions
   * at all may be supplied, and every result below holds for all of them.
   */
  datatype EngineMath = EngineMath(
    /** `Mathf.SmoothDamp(current, target, ref velocity, smoothTime)` at a frame time */
    smoothDamp: (real, real, real, real, real) -> Damped,
    /** `Mathf.SmoothDampAngle`, same arguments */
    smoothDampAngle: (real, real, real, real, real) -> Damped,
    /** `Mathf.Atan2(x, z) * Mathf.Rad2Deg` */
    atan2Degrees: (real, real) -> real,
    /** `transform.forward` for a yaw in degrees */
    forward: real -> Vec3,
    /** `GetMoveInputDot()` for the character's yaw and `directionInput` */
    moveInputDot: (real, Vec3) -> real)

  /**
   * What a tick takes from the engine: the ground sensor's answer
   * (`Physics.CheckSphere`), `Time.deltaTime`, the length of the move input
   * and the camera's yaw.
   */
  datatype TickInput = TickInput(isGrounded: bool, deltaTime: real, moveMagnitude: real, cameraYaw: real)

  /**
   * The behaviour's private state. `yaw` is the transform's Euler `y` angle
   * and `verticalVelocity` is `moveDirection.y` (the only component of
   * `moveDirection` ever written).
   */
  datatype Locomotion = Locomotion(
    speed: real,
    speedSmoothVelocity: real,
    turnSmoothVelocity: real,
    yaw: real,
    verticalVelocity: real,
    directionInput: Vec3,
    hasDoubledJumped: bool,
    isGrounded: bool,
    lastGroundedFrame: int32)

  /** Everything a tick reads or writes. */
  datatype Frame = Frame(loco: Locomotion, flags: InputFlags, anim: AnimatorParams, moves: seq<Vec3>)

  /** `PerformGroundCheck`: the sensor's answer becomes `isGrounded`, nothing else changes. */
  function GroundCheck(fr: Frame, t: TickInput): (r: Frame)
    ensures r.loco.isGrounded == t.isGrounded
    ensures r.(loco := r.loco.(isGrounded := fr.loco.isGrounded)) == fr
  {
    fr.(loco := fr.loco.(isGrounded := t.isGrounded))
  }

  /** The angle `HandleDirection` turns toward: input direction plus camera yaw. */
  function TargetRotation(eng: EngineMath, direction: Vec3, t: TickInput): real {
    eng.atan2Degrees(direction.x, direction.z) + t.cameraYaw
  }

  /**
   * `HandleDirection`: the facing is smoothed toward the camera-relative
   * input angle only when there is input and rotation is not locked;
   * without input the run flag is cleared.
   */
  function Direction(cfg: MovementConfig, eng: EngineMath, fr: Frame, t: TickInput): (r: Frame)
    requires IsMagnitude(t.moveMagnitude, fr.flags.moveInput)
    ensures r.loco.directionInput == Normalized(fr.flags.moveInput, t.moveMagnitude)
    ensures fr.flags.moveInput != Zero2 && !fr.flags.rotationLocked ==>
      var d := eng.smoothDampAngle(fr.loco.yaw, TargetRotation(eng, r.loco.directionInput, t),
                                   fr.loco.turnSmoothVelocity, cfg.turnSmoothTime, t.deltaTime);
      r.loco.yaw == d.value && r.loco.turnSmoothVelocity == d.velocity
    ensures fr.flags.moveInput == Zero2 || fr.flags.rotationLocked ==>
      r.loco.yaw == fr.loco.yaw && r.loco.turnSmoothVelocity == fr.loco.turnSmoothVelocity
    ensures r.flags == fr.flags.(shouldRun := fr.flags.shouldRun && fr.flags.moveInput != Zero2)
    ensures r.loco == fr.loco.(yaw := r.loco.yaw, turnSmoothVelocity := r.loco.turnSmoothVelocity,
                               directionInput := r.loco.directionInput)
    ensures r.anim == fr.anim && r.moves == fr.moves
  {
    var l := fr.loco;
    var direction := Normalized(fr.flags.moveInput, t.moveMagnitude);
    if t.moveMagnitude != 0.0 then
      if !fr.flags.rotationLocked then
        var d := eng.smoothDampAngle(l.yaw, TargetRotation(eng, direction, t),
                                     l.turnSmoothVelocity, cfg.turnSmoothTime, t.deltaTime);
        fr.(loco := l.(directionInput := direction, yaw := d.value, turnSmoothVelocity := d.velocity))
      else
        fr.(loco := l.(directionInput := direction))
    else
      fr.(loco := l.(directionInput := direction), flags := fr.flags.(shouldRun := false))
  }

  /** The argument of the horizontal `Move`: forward direction times speed times frame time. */
  function HorizontalMotion(speed: real, deltaTime: real, forward: Vec3): Vec3 {
    Scale(speed * deltaTime, forward)
  }

  /** The argument of the vertical `Move`: the vertical velocity times frame time, straight up. */
  function VerticalMotion(verticalVelocity: real, deltaTime: real): Vec3 {
    Vec3(0.0, verticalVelocity * deltaTime, 0.0)
  }

  /** The speed rule: running wins, crouching counts only on the ground, walking otherwise. */
  function TargetSpeed(cfg: MovementConfig, shouldRun: bool, isGrounded: bool, shouldCrouch: bool): (r: real)
    ensures shouldRun ==> r == cfg.runSpeed
    ensures !shouldRun && isGrounded && shouldCrouch ==> r == cfg.crouchSpeed
    ensures !shouldRun && !(isGrounded && shouldCrouch) ==> r == cfg.walkSpeed
  {
    if shouldRun then cfg.runSpeed
    else if isGrounded && shouldCrouch then cfg.crouchSpeed
    else cfg.walkSpeed
  }

  /**
   * `HandleSpeedAndMovement`: running cancels crouching, the speed is
   * smoothed toward the target speed scaled by the input length, no input
   * clears the run flag, and the character is moved along its forward
   * direction by speed times frame time.
   */
  function SpeedAndMovement(cfg: MovementConfig, eng: EngineMath, fr: Frame, t: TickInput): (r: Frame)
    ensures
      var target := TargetSpeed(cfg, fr.flags.shouldRun, fr.loco.isGrounded, fr.flags.shouldCrouch);
      var d := eng.smoothDamp(fr.loco.speed, Mul(target, t.moveMagnitude), fr.loco.speedSmoothVelocity,
                              cfg.speedSmoothTime, t.deltaTime);
      r.loco.speed == d.value && r.loco.speedSmoothVelocity == d.velocity
    ensures r.flags.shouldCrouch == (fr.flags.shouldCrouch && !fr.flags.shouldRun)
    ensures r.flags.shouldRun == (fr.flags.shouldRun && t.moveMagnitude != 0.0)
    ensures r.flags == fr.flags.(shouldRun := r.flags.shouldRun, shouldCrouch := r.flags.shouldCrouch)
    ensures r.loco == fr.loco.(speed := r.loco.speed, speedSmoothVelocity := r.loco.speedSmoothVelocity)
    ensures r.anim == fr.anim
    ensures r.moves == fr.moves + [HorizontalMotion(r.loco.speed, t.deltaTime, eng.forward(fr.loco.yaw))]
  {
    var l := fr.loco;
    var f1 := if fr.flags.shouldRun then fr.flags.(shouldCrouch := false) else fr.flags;
    var target := TargetSpeed(cfg, fr.flags.shouldRun, l.isGrounded, fr.flags.shouldCrouch);
    var d := eng.smoothDamp(l.speed, Mul(target, t.moveMagnitude), l.speedSmoothVelocity, cfg.speedSmoothTime, t.deltaTime);
    var f2 := if t.moveMagnitude == 0.0 then f1.(shouldRun := false) else f1;
    Frame(l.(speed := d.value, speedSmoothVelocity := d.velocity), f2, fr.anim,
          fr.moves + [HorizontalMotion(d.value, t.deltaTime, eng.forward(l.yaw))])
  }

  /** The jump guard: a jump is requested, and the character is grounded or has not yet jumped in the air. */
  predicate JumpFires(l: Locomotion, f: InputFlags) {
    (l.isGrounded || !l.hasDoubledJumped) && f.shouldJump
  }

  /** The change of vertical velocity from gravity in one frame, if gravity applies. */
  function GravityStep(cfg: MovementConfig, f: InputFlags, t: TickInput): real {
    if f.affectedByGravity then Mul(cfg.gravity, t.deltaTime) else 0.0
  }

  /**
   * `HandleJumping`. A jump that fires sets the vertical velocity to the
   * jump force, consumes the request and restarts the landing count; in the
   * air it is the double jump. A grounded frame without a jump zeroes the
   * vertical velocity only once the landing count exceeds 1, counts one
   * more grounded frame and clears both jump animator parameters. An
   * airborne frame without a jump changes none of that. Gravity is then
   * added if it applies, and the character is moved vertically.
   */
  function Jumping(cfg: MovementConfig, fr: Frame, t: TickInput): (r: Frame)
    ensures JumpFires(fr.loco, fr.flags) ==>
      r.loco.verticalVelocity == cfg.jumpForce + GravityStep(cfg, fr.flags, t) &&
      !r.flags.shouldJump && r.loco.lastGroundedFrame == 0
    ensures JumpFires(fr.loco, fr.flags) && !fr.loco.isGrounded ==> r.anim == fr.anim.(doubleJumped := true)
    ensures JumpFires(fr.loco, fr.flags) && fr.loco.isGrounded ==> r.anim == fr.anim.(jump := true)
    ensures !JumpFires(fr.loco, fr.flags) && fr.loco.isGrounded ==>
      r.loco.verticalVelocity == (if fr.loco.lastGroundedFrame > 1 then 0.0 else fr.loco.verticalVelocity)
                                 + GravityStep(cfg, fr.flags, t) &&
      r.loco.lastGroundedFrame == Increment(fr.loco.lastGroundedFrame) &&
      r.anim == fr.anim.(jump := false, doubleJumped := false)
    ensures !JumpFires(fr.loco, fr.flags) && !fr.loco.isGrounded ==>
      r.loco.verticalVelocity == fr.loco.verticalVelocity + GravityStep(cfg, fr.flags, t) &&
      r.loco.lastGroundedFrame == fr.loco.lastGroundedFrame && r.anim == fr.anim
    ensures r.loco.hasDoubledJumped == (fr.loco.hasDoubledJumped || (JumpFires(fr.loco, fr.flags) && !fr.loco.isGrounded))
    ensures r.flags == fr.flags.(shouldJump := fr.flags.shouldJump && !JumpFires(fr.loco, fr.flags))
    ensures r.loco == fr.loco.(verticalVelocity := r.loco.verticalVelocity, hasDoubledJumped := r.loco.hasDoubledJumped,
                               lastGroundedFrame := r.loco.lastGroundedFrame)
    ensures r.moves == fr.moves + [VerticalMotion(r.loco.verticalVelocity, t.deltaTime)]
  {
    var l, f, a := fr.loco, fr.flags, fr.anim;
    var (l1, f1, a1) :=
      if JumpFires(l, f) then
        (l.(hasDoubledJumped := if !l.isGrounded then true else l.hasDoubledJumped,
            verticalVelocity := cfg.jumpForce, lastGroundedFrame := 0),
         f.(shouldJump := false),
         if !l.isGrounded then a.(doubleJumped := true) else a.(jump := true))
      else if l.isGrounded then
        (l.(verticalVelocity := if l.lastGroundedFrame > 1 then 0.0 else l.verticalVelocity,
            lastGroundedFrame := Increment(l.lastGroundedFrame)),
         f,
         a.(jump := false, doubleJumped := false))
      else
        (l, f, a);
    var vy := l1.verticalVelocity + GravityStep(cfg, f1, t);
    Frame(l1.(verticalVelocity := vy), f1, a1, fr.moves + [VerticalMotion(vy, t.deltaTime)])
  }

  /** `HandleAnimations`: publish the current values; the jump parameters are left as they are. */
  function Animations(eng: EngineMath, fr: Frame, t: TickInput): AnimatorParams {
    var l := fr.loco;
    fr.anim.(speed := l.speed, verticalSpeed := l.verticalVelocity, moveInputMag := t.moveMagnitude,
             moveInputX := fr.flags.moveInput.x, moveInputY := fr.flags.moveInput.y,
             isRunning := fr.flags.shouldRun, isCrouching := fr.flags.shouldCrouch,
             isGrounded := l.isGrounded, moveInputDot := eng.moveInputDot(l.yaw, l.directionInput))
  }

  /** The jump guard as the jump step sees it: after this tick's ground check. */
  predicate JumpFiredOn(fr: Frame, t: TickInput) {
    JumpFires(fr.loco.(isGrounded := t.isGrounded), fr.flags)
  }

  /** `HandleMovement`: the five steps in order. */
  function Tick(cfg: MovementConfig, eng: EngineMath, fr: Frame, t: TickInput): (r: Frame)
    requires IsMagnitude(t.moveMagnitude, fr.flags.moveInput)
    // the ground check's answer is the one every later step and the animator see
    ensures r.loco.isGrounded == t.isGrounded
    // two moves: horizontal along the final facing, then vertical
    ensures r.moves == fr.moves + [HorizontalMotion(r.loco.speed, t.deltaTime, eng.forward(r.loco.yaw)),
                                   VerticalMotion(r.loco.verticalVelocity, t.deltaTime)]
    // the published parameters are the values after the update
    ensures r.anim.speed == r.loco.speed && r.anim.verticalSpeed == r.loco.verticalVelocity
    ensures r.anim.isRunning == r.flags.shouldRun && r.anim.isCrouching == r.flags.shouldCrouch
    ensures r.anim.isGrounded == r.loco.isGrounded && r.anim.moveInputMag == t.moveMagnitude
    ensures r.anim.moveInputX == r.flags.moveInput.x && r.anim.moveInputY == r.flags.moveInput.y
    ensures r.anim.moveInputDot == eng.moveInputDot(r.loco.yaw, r.loco.directionInput)
    // the tick never writes the move vector, the look vector or a lock
    ensures r.flags == fr.flags.(shouldJump := r.flags.shouldJump, shouldRun := r.flags.shouldRun,
                                 shouldCrouch := r.flags.shouldCrouch)
    // releasing the input stops running; running (still with input) cancels crouching
    ensures r.flags.shouldRun == (fr.flags.shouldRun && fr.flags.moveInput != Zero2)
    ensures r.flags.shouldCrouch == (fr.flags.shouldCrouch && !r.flags.shouldRun)
    ensures fr.flags.moveInput == Zero2 ==> !r.flags.shouldRun && !r.anim.isRunning
    // the speed is smoothed toward the rule's speed scaled by the input length
    ensures r.loco.speed == eng.smoothDamp(fr.loco.speed,
      Mul(TargetSpeed(cfg, r.flags.shouldRun, t.isGrounded, fr.flags.shouldCrouch), t.moveMagnitude),
      fr.loco.speedSmoothVelocity, cfg.speedSmoothTime, t.deltaTime).value
    // the facing is frozen without input or under a rotation lock
    ensures fr.flags.moveInput == Zero2 || fr.flags.rotationLocked ==>
      r.loco.yaw == fr.loco.yaw && r.loco.turnSmoothVelocity == fr.loco.turnSmoothVelocity
    // the jump machine
    ensures JumpFiredOn(fr, t) ==>
      r.loco.verticalVelocity == cfg.jumpForce + GravityStep(cfg, fr.flags, t) &&
      !r.flags.shouldJump && r.loco.lastGroundedFrame == 0
    ensures JumpFiredOn(fr, t) && !t.isGrounded ==> r.anim.doubleJumped && r.anim.jump == fr.anim.jump
    ensures JumpFiredOn(fr, t) && t.isGrounded ==> r.anim.jump && r.anim.doubleJumped == fr.anim.doubleJumped
    ensures r.loco.hasDoubledJumped == (fr.loco.hasDoubledJumped || (JumpFiredOn(fr, t) && !t.isGrounded))
    ensures !JumpFiredOn(fr, t) && t.isGrounded ==>
      r.loco.verticalVelocity == (if fr.loco.lastGroundedFrame > 1 then 0.0 else fr.loco.verticalVelocity)
                                 + GravityStep(cfg, fr.flags, t) &&
      r.loco.lastGroundedFrame == Increment(fr.loco.lastGroundedFrame) &&
      r.flags.shouldJump == fr.flags.shouldJump && !r.anim.jump && !r.anim.doubleJumped
    ensures !JumpFiredOn(fr, t) && !t.isGrounded ==>
      r.loco.verticalVelocity == fr.loco.verticalVelocity + GravityStep(cfg, fr.flags, t) &&
      r.loco.lastGroundedFrame == fr.loco.lastGroundedFrame && r.flags.shouldJump == fr.flags.shouldJump &&
      r.anim.jump == fr.anim.jump && r.anim.doubleJumped == fr.anim.doubleJumped
  {
    var f1 := GroundCheck(fr, t);
    var f2 := Direction(cfg, eng, f1, t);
    var f3 := SpeedAndMovement(cfg, eng, f2, t);
    var f4 := Jumping(cfg, f3, t);
    f4.(anim := Animations(eng, f4, t))
  }

  /**
   * `MovementLocked` is never read by the tick: whatever its value, the
   * tick moves, turns, jumps and publishes the same.
   */
  lemma MovementLockIgnored(cfg: MovementConfig, eng: EngineMath, fr: Frame, t: TickInput, locked: bool)
    requires IsMagnitude(t.moveMagnitude, fr.flags.moveInput)
    ensures var fl := fr.(flags := fr.flags.(movementLocked := locked));
      var r, rl := Tick(cfg, eng, fr, t), Tick(cfg, eng, fl, t);
      rl.loco == r.loco && rl.anim == r.anim && rl.moves == r.moves &&
      rl.flags == r.flags.(movementLocked := locked)
  {
    var fl := fr.(flags := fr.flags.(movementLocked := locked));
    var g, gl := GroundCheck(fr, t), GroundCheck(fl, t);
    assert gl == g.(flags := g.flags.(movementLocked := locked));
    DirectionIgnoresLock(cfg, eng, g, t, locked);
    var d := Direction(cfg, eng, g, t);
    SpeedIgnoresLock(cfg, eng, d, t, locked);
    var s := SpeedAndMovement(cfg, eng, d, t);
    JumpingIgnoresLock(cfg, s, t, locked);
  }

  lemma DirectionIgnoresLock(cfg: MovementConfig, eng: EngineMath, fr: Frame, t: TickInput, locked: bool)
    requires IsMagnitude(t.moveMagnitude, fr.flags.moveInput)
    ensures var r := Direction(cfg, eng, fr, t);
      Direction(cfg, eng, fr.(flags := fr.flags.(movementLocked := locked)), t) == r.(flags := r.flags.(movementLocked := locked))
  {
  }

  lemma SpeedIgnoresLock(cfg: MovementConfig, eng: EngineMath, fr: Frame, t: TickInput, locked: bool)
    ensures var r := SpeedAndMovement(cfg, eng, fr, t);
      SpeedAndMovement(cfg, eng, fr.(flags := fr.flags.(movementLocked := locked)), t) == r.(flags := r.flags.(movementLocked := locked))
  {
  }

  lemma JumpingIgnoresLock(cfg: MovementConfig, fr: Frame, t: TickInput, locked: bool)
    ensures var r := Jumping(cfg, fr, t);
      Jumping(cfg, fr.(flags := fr.flags.(movementLocked := locked)), t) == r.(flags := r.flags.(movementLocked := locked))
  {
  }

  /**
   * With the fields' initialisers, a jump that fires under gravity leaves
   * the character rising at 8 minus one frame of 9.81, and a grounded tick
   * without a jump, long after landing, leaves it only one frame of gravity.
   */
  lemma DefaultJumpTick(eng: EngineMath, fr: Frame, t: TickInput)
    requires IsMagnitude(t.moveMagnitude, fr.flags.moveInput)
    requires fr.flags.affectedByGravity
    ensures JumpFiredOn(fr, t) ==>
      Tick(DefaultMovementConfig, eng, fr, t).loco.verticalVelocity == 8.0 + Mul(-9.81, t.deltaTime)
    ensures !JumpFiredOn(fr, t) && t.isGrounded && fr.loco.lastGroundedFrame > 1 ==>
      Tick(DefaultMovementConfig, eng, fr, t).loco.verticalVelocity == Mul(-9.81, t.deltaTime)
  {
  }

  /**
   * One tick of a run: `flags` are the input flags as the tick finds them,
   * after whatever input callbacks and animation-state callbacks ran since
   * the previous tick, and `engine` and `tick` are the engine's answers on
   * that frame.
   */
  datatype Step = Step(flags: InputFlags, engine: EngineMath, tick: TickInput)

  predicate ValidSteps(steps: seq<Step>) {
    forall i :: 0 <= i < |steps| ==> IsMagnitude(steps[i].tick.moveMagnitude, steps[i].flags.moveInput)
  }

  /** Successive ticks, oldest first. */
  function Run(cfg: MovementConfig, fr: Frame, steps: seq<Step>): Frame
    requires ValidSteps(steps)
    decreases |steps|
  {
    if steps == [] then fr
    else Run(cfg, Tick(cfg, steps[0].engine, fr.(flags := steps[0].flags), steps[0].tick), steps[1..])
  }

  /** The code never clears `hasDoubledJumped`: once set it stays set through any ticks, landings included. */
  lemma {:induction false} DoubleJumpNeverCleared(cfg: MovementConfig, fr: Frame, steps: seq<Step>)
    requires ValidSteps(steps)
    requires fr.loco.hasDoubledJumped
    ensures Run(cfg, fr, steps).loco.hasDoubledJumped
    decreases |steps|
  {
    if steps != [] {
      DoubleJumpNeverCleared(cfg, Tick(cfg, steps[0].engine, fr.(flags := steps[0].flags), steps[0].tick), steps[1..]);
    }
  }

  /** A tick on which a jump fires in the air. */
  predicate AirJumpOn(l: Locomotion, s: Step) {
    !s.tick.isGrounded && !l.hasDoubledJumped && s.flags.shouldJump
  }

  /** How many ticks of a run fire a jump in the air. */
  function AirJumps(cfg: MovementConfig, fr: Frame, steps: seq<Step>): nat
    requires ValidSteps(steps)
    decreases |steps|
  {
    if steps == [] then 0
    else (if AirJumpOn(fr.loco, steps[0]) then 1 else 0)
         + AirJumps(cfg, Tick(cfg, steps[0].engine, fr.(flags := steps[0].flags), steps[0].tick), steps[1..])
  }

  /**
   * At most one jump ever fires in the air, and none once the double jump
   * has been used: the second jump of an airborne episode is a one-shot for
   * the life of the behaviour, not per episode.
   */
  lemma {:induction false} AirJumpsAtMostOnce(cfg: MovementConfig, fr: Frame, steps: seq<Step>)
    requires ValidSteps(steps)
    ensures AirJumps(cfg, fr, steps) <= if fr.loco.hasDoubledJumped then 0 else 1
    decreases |steps|
  {
    if steps != [] {
      var next := Tick(cfg, steps[0].engine, fr.(flags := steps[0].flags), steps[0].tick);
      assert AirJumpOn(fr.loco, steps[0]) ==> JumpFiredOn(fr.(flags := steps[0].flags), steps[0].tick);
      AirJumpsAtMostOnce(cfg, next, steps[1..]);
    }
  }

  /** The gravity a step adds to the vertical velocity. */
  function StepGravity(cfg: MovementConfig, s: Step): real {
    GravityStep(cfg, s.flags, s.tick)
  }

  function GravitySum(cfg: MovementConfig, steps: seq<Step>): real
    decreases |steps|
  {
    if steps == [] then 0.0 else StepGravity(cfg, steps[0]) + GravitySum(cfg, steps[1..])
  }

  /**
   * The jump arc: over airborne ticks on which no jump fires (no request,
   * or the double jump already used) the vertical velocity changes by
   * exactly the gravity of each tick, and the landing count and the
   * double-jump flag stay as they were.
   */
  lemma {:induction false} AirborneRun(cfg: MovementConfig, fr: Frame, steps: seq<Step>)
    requires ValidSteps(steps)
    requires forall i :: 0 <= i < |steps| ==> !steps[i].tick.isGrounded
    requires forall i :: 0 <= i < |steps| ==> !steps[i].flags.shouldJump || fr.loco.hasDoubledJumped
    ensures Run(cfg, fr, steps).loco.verticalVelocity == fr.loco.verticalVelocity + GravitySum(cfg, steps)
    ensures Run(cfg, fr, steps).loco.lastGroundedFrame == fr.loco.lastGroundedFrame
    ensures Run(cfg, fr, steps).loco.hasDoubledJumped == fr.loco.hasDoubledJumped
    decreases |steps|
  {
    if steps != [] {
      var next := Tick(cfg, steps[0].engine, fr.(flags := steps[0].flags), steps[0].tick);
      assert !JumpFiredOn(fr.(flags := steps[0].flags), steps[0].tick);
      AirborneRun(cfg, next, steps[1..]);
    }
  }

  /**
   * The landing grace window: over grounded ticks without a jump request
   * the landing count goes up by one per tick; the vertical velocity is
   * zeroed on a tick only when the count it starts from exceeds 1. So right
   * after a jump (count 0) the first two grounded ticks keep the carried
   * velocity (plus gravity) and every later one starts again from zero.
   */
  lemma {:induction false} GroundedRun(cfg: MovementConfig, fr: Frame, steps: seq<Step>)
    requires ValidSteps(steps)
    requires forall i :: 0 <= i < |steps| ==> steps[i].tick.isGrounded && !steps[i].flags.shouldJump
    requires 0 <= fr.loco.lastGroundedFrame as int
    requires fr.loco.lastGroundedFrame as int + |steps| <= Int32Max
    ensures Run(cfg, fr, steps).loco.lastGroundedFrame as int == fr.loco.lastGroundedFrame as int + |steps|
    ensures fr.loco.lastGroundedFrame as int + |steps| <= 2 ==>
      Run(cfg, fr, steps).loco.verticalVelocity == fr.loco.verticalVelocity + GravitySum(cfg, steps)
    ensures steps != [] && fr.loco.lastGroundedFrame as int + |steps| >= 3 ==>
      Run(cfg, fr, steps).loco.verticalVelocity == StepGravity(cfg, steps[|steps| - 1])
    ensures Run(cfg, fr, steps).loco.hasDoubledJumped == fr.loco.hasDoubledJumped
    decreases |steps|
  {
    if steps != [] {
      var next := Tick(cfg, steps[0].engine, fr.(flags := steps[0].flags), steps[0].tick);
      assert !JumpFiredOn(fr.(flags := steps[0].flags), steps[0].tick);
      GroundedRun(cfg, next, steps[1..]);
      assert steps[1..] != [] ==> steps[1..][|steps[1..]| - 1] == steps[|steps| - 1];
    }
  }

  class MovementBehavior {
    const config: MovementConfig
    const animator: Animator
    const characterController: CharacterController

    var speed: real
    var speedSmoothVelocity: real
    var turnSmoothVelocity: real
    /** `transform.eulerAngles.y` */
    var yaw: real
    /** `moveDirection.y` */
    var verticalVelocity: real
    var directionInput: Vec3
    var hasDoubledJumped: bool
    var isGrounded: bool
    var lastGroundedFrame: int32

    function State(): Locomotion
      reads this
    {
      Locomotion(speed, speedSmoothVelocity, turnSmoothVelocity, yaw, verticalVelocity,
                 directionInput, hasDoubledJumped, isGrounded, lastGroundedFrame)
    }

    function CurrentFrame(input: InputManager): Frame
      reads this, input, animator, characterController
    {
      Frame(State(), input.Flags(), animator.parameters, characterController.moves)
    }

    /** The behaviour after `Start`, on a transform with yaw `yaw`. */
    constructor (config: MovementConfig, animator: Animator, characterController: CharacterController, yaw: real)
      ensures this.config == config && this.animator == animator && this.characterController == characterController
      ensures State() == Locomotion(0.0, 0.0, 0.0, yaw, 0.0, Zero3, false, false, 0)
    {
      this.config := config;
      this.animator := animator;
      this.characterController := characterController;
      speed, speedSmoothVelocity, turnSmoothVelocity := 0.0, 0.0, 0.0;
      this.yaw := yaw;
      verticalVelocity := 0.0;
      directionInput := Zero3;
      hasDoubledJumped, isGrounded := false, false;
      lastGroundedFrame := 0;
    }

    method HandleMovement(input: InputManager, eng: EngineMath, t: TickInput)
      requires IsMagnitude(t.moveMagnitude, input.moveInput)
      modifies this, input`shouldJump, input`shouldRun, input`shouldCrouch, animator`parameters, characterController
      ensures CurrentFrame(input) == Tick(config, eng, old(CurrentFrame(input)), t)
    {
      PerformGroundCheck(input, t);
      HandleDirection(input, eng, t);
      HandleSpeedAndMovement(input, eng, t);
      HandleJumping(input, t);
      HandleAnimations(input, eng, t);
    }

    method PerformGroundCheck(input: InputManager, t: TickInput)
      modifies this`isGrounded
      ensures CurrentFrame(input) == GroundCheck(old(CurrentFrame(input)), t)
    {
      isGrounded := t.isGrounded;
    }

    method HandleDirection(input: InputManager, eng: EngineMath, t: TickInput)
      requires IsMagnitude(t.moveMagnitude, input.moveInput)
      modifies this`directionInput, this`yaw, this`turnSmoothVelocity, input`shouldRun
      ensures CurrentFrame(input) == Direction(config, eng, old(CurrentFrame(input)), t)
    {
      var moveInput := input.moveInput;
      directionInput := Normalized(moveInput, t.moveMagnitude);
      if t.moveMagnitude != 0.0 {
        if !input.rotationLocked {
          var targetRotation := eng.atan2Degrees(directionInput.x, directionInput.z) + t.cameraYaw;
          var d := eng.smoothDampAngle(yaw, targetRotation, turnSmoothVelocity, config.turnSmoothTime, t.deltaTime);
          yaw, turnSmoothVelocity := d.value, d.velocity;
        }
      } else {
        input.shouldRun := false;
      }
    }

    method HandleSpeedAndMovement(input: InputManager, eng: EngineMath, t: TickInput)
      modifies this`speed, this`speedSmoothVelocity, input`shouldRun, input`shouldCrouch, characterController
      ensures CurrentFrame(input) == SpeedAndMovement(config, eng, old(CurrentFrame(input)), t)
    {
      var targetSpeed := 0.0;
      if input.shouldRun {
        targetSpeed := config.runSpeed;
        input.shouldCrouch := false;
      } else {
        targetSpeed := if isGrounded && input.shouldCrouch then config.crouchSpeed else config.walkSpeed;
      }
      var d := eng.smoothDamp(speed, Mul(targetSpeed, t.moveMagnitude), speedSmoothVelocity, config.speedSmoothTime, t.deltaTime);
      speed, speedSmoothVelocity := d.value, d.velocity;
      if t.moveMagnitude == 0.0 {
        input.shouldRun := false;
      }
      characterController.Move(HorizontalMotion(speed, t.deltaTime, eng.forward(yaw)));
    }

    method HandleJumping(input: InputManager, t: TickInput)
      modifies this`verticalVelocity, this`hasDoubledJumped, this`lastGroundedFrame, input`shouldJump,
               animator`parameters, characterController
      ensures CurrentFrame(input) == Jumping(config, old(CurrentFrame(input)), t)
    {
      if (isGrounded || !hasDoubledJumped) && input.shouldJump {
        if !isGrounded {
          hasDoubledJumped := true;
          animator.parameters := animator.parameters.(doubleJumped := true);
        } else {
          animator.parameters := animator.parameters.(jump := true);
        }
        verticalVelocity := config.jumpForce;
        input.shouldJump := false;
        lastGroundedFrame := 0;
      } else if isGrounded {
        if lastGroundedFrame > 1 {
          verticalVelocity := 0.0;
        }
        animator.parameters := animator.parameters.(jump := false);
        animator.parameters := animator.parameters.(doubleJumped := false);
        lastGroundedFrame := Increment(lastGroundedFrame);
      }
      if input.affectedByGravity {
        verticalVelocity := verticalVelocity + Mul(config.gravity, t.deltaTime);
      }
      characterController.Move(VerticalMotion(verticalVelocity, t.deltaTime));
    }

    method HandleAnimations(input: InputManager, eng: EngineMath, t: TickInput)
      modifies animator`parameters
      ensures CurrentFrame(input) == old(CurrentFrame(input)).(anim := Animations(eng, old(CurrentFrame(input)), t))
    {
      var moveInput := input.moveInput;
      animator.parameters := animator.parameters.(
        speed := speed,
        verticalSpeed := verticalVelocity,
        moveInputMag := t.moveMagnitude,
        moveInputX := moveInput.x,
        moveInputY := moveInput.y,
        isRunning := input.shouldRun,
        isCrouching := input.shouldCrouch,
        isGrounded := isGrounded,
        moveInputDot := eng.moveInputDot(yaw, directionInput));
    }
  }
}
