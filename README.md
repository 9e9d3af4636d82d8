# Third-person character controller: locomotion, input, lock hooks and pinch zoom

This project models the runtime core of a Unity third-person character
controller and proves properties of that model:

- `MovementBehavior`, the per-frame locomotion tick (module `Movement`). One
  tick runs five steps in a fixed order:
  - a ground check;
  - facing toward the camera-relative input direction;
  - speed selection by the rule run > crouch-while-grounded > walk, with
    smoothing and the horizontal move;
  - the jump / double-jump / landing machine with gravity, and the vertical move;
  - publishing the animator parameters.
- `InputManager`, the process-wide bag of input flags (module `Input`). It
  has a first-one-wins singleton rule and performed/canceled callbacks that
  overwrite one property each.
- `RootMotionBehavior`, the animation-state hooks (module `RootMotion`). On
  state enter and exit they overwrite the movement lock, the rotation lock,
  the gravity switch and the animator's root-motion switch with configured
  values.
- `CameraController`, the pinch-zoom state machine (module `Camera`). A
  pinch has a mode, a stored finger distance and a clamped zoom target.
  Camera rotation is switched off when a pinch begins and back on when it
  ends.

Each C# class is a Dafny class whose fields are the fields the code updates.
Each of its methods is proved to leave the object in the state given by a
pure function of the old state, for example
`ensures CurrentFrame(input) == Tick(config, eng, old(CurrentFrame(input)), t)`.
The properties the code promises are stated on those functions, and on runs
of them over sequences of frames, callbacks or ticks.

Engine services are inputs to the model:

- the ground sensor, the frame time, the length of the move input, the
  camera yaw and the finger distance are per-frame values;
- `Mathf.SmoothDamp`, `Mathf.SmoothDampAngle`, the `Atan2` heading,
  `transform.forward` and `GetMoveInputDot` are arbitrary functions carried
  in `Movement.EngineMath`, so every result holds for all of them;
- `CharacterController.Move` records each requested displacement in a list;
- the animator is a record of named parameters plus `applyRootMotion`;
- the static `InputManager.Instance` is a `Singleton` object passed to `Awake`.

`float` is modelled as `real` and C# `int` as `int32` with explicit
wrap-around. In the movement tick, a product of two unknown quantities goes
through `Mul(a, b)` or through the named functions `HorizontalMotion` and
`VerticalMotion`, so that the solver treats it as a term.

Where the code's behaviour differs from what its names suggest, the model
follows the code:

- `hasDoubledJumped` is set by an airborne jump and never cleared, so one
  double jump is available per behaviour lifetime (`AirJumpsAtMostOnce`).
  Landing only clears the `DoubleJumped` animator parameter.
- `MovementLocked` is written by the lock hooks but never read by the tick,
  and the horizontal `Move` is unconditional (`MovementLockIgnored`).
- `lastGroundedFrame` is reset only by a jump, never by losing the ground.
- The horizontal move goes along `transform.forward`, the character's own
  facing after this tick's turn. It does not go along the input direction.
- `AffectedByGravity` is used by the tick and the hooks but not declared in
  `InputManager`. It is modelled as one more flag starting `false`, the C#
  default.
- Every configuration field (speeds, smoothing times, jump force, gravity,
  lock settings and zoom settings) is read and never written by the code.
  It is a `const` record fixed by the constructor.

## Model

| member | source | states |
|---|---|---|
| UnityMath.Normalized | Assets/Scripts/Behaviors/MovementBehavior.cs:85 | the direction of a flattened input vector is level; it is zero for zero input, and otherwise scaling it by the input length gives the input back |
| UnityMath.Clamp | Assets/Scripts/Controllers/CameraController.cs:71 | `Mathf.Clamp` lands in `[min, max]` when `min <= max`, leaves in-range values alone, and returns the value or one of the bounds |
| UnityMath.Increment | Assets/Scripts/Behaviors/MovementBehavior.cs:154 | `lastGroundedFrame++` on a C# `int` adds one modulo 2^32 and adds exactly one below `int.MaxValue` |
| Input.Apply | Assets/Scripts/Managers/InputManager.cs:46-56 | Move performed stores the read vector and Move canceled stores zero; Jump/Run/Crouch performed set their flag and canceled clears it; each callback writes only its own property and never the look vector or a lock |
| Input.LastWriteWins | Assets/Scripts/Managers/InputManager.cs:46-56 | after any sequence of callbacks, each input property holds the value its own action wrote last (or its old value if none wrote it), and the look vector and the locks are unchanged |
| Input.InputManager.constructor | Assets/Scripts/Managers/InputManager.cs:12-21 | a fresh manager has zero vectors and every flag false |
| Input.InputManager.Awake | Assets/Scripts/Managers/InputManager.cs:26-36 | the first manager to wake installs itself as the instance; a later one leaves the instance in place and is destroyed |
| Input.InputManager.Handle | Assets/Scripts/Managers/InputManager.cs:46-56 | running a callback on the object changes its properties exactly as `Apply` does |
| RootMotion.WithLocks | Assets/Scripts/AnimationBehaviors/RootMotionBehavior.cs:28-30 | a hook sets the movement lock, rotation lock and gravity switch to its values and leaves the move vector, the look vector and the jump/run/crouch flags unchanged |
| RootMotion.EnterAndExitSettings | Assets/Scripts/AnimationBehaviors/RootMotionBehavior.cs:25-40 | after enter the four values are the on-enter settings; after exit they are the on-exit settings, whatever enter wrote |
| RootMotion.CallbacksLastWriteWins | Assets/Scripts/AnimationBehaviors/RootMotionBehavior.cs:25-40 | after any sequence of hooks, from any behaviours on the states of one animator, the three shared flags and that animator's root-motion switch are those of the last hook, and no input property is changed |
| RootMotion.DefaultEnterThenExit | Assets/Scripts/AnimationBehaviors/RootMotionBehavior.cs:8-40 | with the default settings the character is unlocked with root motion while in the state, and unlocked under gravity without root motion after leaving it |
| RootMotion.RootMotionBehavior.OnStateEnter | Assets/Scripts/AnimationBehaviors/RootMotionBehavior.cs:25-31 | the hook writes the on-enter settings to the animator and the input manager, and nothing else |
| RootMotion.RootMotionBehavior.OnStateExit | Assets/Scripts/AnimationBehaviors/RootMotionBehavior.cs:34-40 | the hook writes the on-exit settings to the animator and the input manager, and nothing else |
| Camera.ZoomStep | Assets/Scripts/Controllers/CameraController.cs:43-71 | the target zoom is clamped to the bounds; pinching holds exactly when the secondary finger is down with no move input; a beginning pinch stores the distance, disables rotation and changes the zoom by nothing beyond the clamp; a continuing pinch zooms by stored minus new distance and stores the new one; no pinch re-enables rotation exactly when a pinch was in progress |
| Camera.ZoomRunInvariants | Assets/Scripts/Controllers/CameraController.cs:43-93 | from a state with rotation enabled exactly when not pinching, that stays so over any frames, and after one frame the target zoom lies in the bounds |
| Camera.DefaultZoomBounds | Assets/Scripts/Controllers/CameraController.cs:14-71 | with the default bounds 10 and 60, the target zoom lies between them after any frame |
| Camera.CameraController.constructor | Assets/Scripts/Controllers/CameraController.cs:19-35 | after `Start` the controller is not pinching and its target zoom is the start field of view |
| Camera.CameraController.HandleCameraZoom | Assets/Scripts/Controllers/CameraController.cs:43-82 | one call moves the controller and the input provider to `ZoomStep` of the old state |
| Camera.CameraController.DisableCameraRotation | Assets/Scripts/Controllers/CameraController.cs:84-87 | the input provider is disabled |
| Camera.CameraController.EnableCameraRotation | Assets/Scripts/Controllers/CameraController.cs:90-93 | the input provider is enabled |
| Movement.GroundCheck | Assets/Scripts/Behaviors/MovementBehavior.cs:76-79 | the sensor's answer becomes `isGrounded` and nothing else changes |
| Movement.Direction | Assets/Scripts/Behaviors/MovementBehavior.cs:82-99 | the direction input is the normalised move input; the facing and turn velocity take the smoothed angle toward heading plus camera yaw exactly when there is input and rotation is not locked, and are untouched otherwise; no input clears `ShouldRun`; nothing else changes |
| Movement.TargetSpeed | Assets/Scripts/Behaviors/MovementBehavior.cs:105-115 | running gives the run speed; otherwise grounded crouching gives the crouch speed; otherwise the walk speed |
| Movement.SpeedAndMovement | Assets/Scripts/Behaviors/MovementBehavior.cs:102-123 | the speed is smoothed toward the rule's speed times the input length; running clears `ShouldCrouch`; zero input clears `ShouldRun`; one move of speed times frame time along the facing is logged; nothing else changes |
| Movement.Jumping | Assets/Scripts/Behaviors/MovementBehavior.cs:125-161 | a jump fires iff requested and (grounded or not yet double-jumped). Firing sets the velocity to the jump force before gravity, consumes the request and resets the landing count; in the air it also marks the double jump. A grounded non-jump zeroes the velocity only when the count exceeds 1, adds one to the count and clears both jump parameters. An airborne non-jump leaves all that alone. Gravity times frame time is added iff gravity applies, and one vertical move is logged |
| Movement.Tick | Assets/Scripts/Behaviors/MovementBehavior.cs:67-176 | the whole tick: grounded equals the sensor; two moves (horizontal along the final facing, then vertical); the published parameters equal the post-update values; the move vector, look vector and locks are untouched; run and crouch clearing; the speed target; facing frozen without input or under the rotation lock; and every branch of the jump machine stated against the state before the tick |
| Movement.MovementLockIgnored | Assets/Scripts/Behaviors/MovementBehavior.cs:67-176 | the tick's state, moves and animator output do not depend on `MovementLocked` |
| Movement.DirectionIgnoresLock | Assets/Scripts/Behaviors/MovementBehavior.cs:82-99 | the facing step does not read `MovementLocked` |
| Movement.SpeedIgnoresLock | Assets/Scripts/Behaviors/MovementBehavior.cs:102-123 | the speed and horizontal-move step does not read `MovementLocked` |
| Movement.JumpingIgnoresLock | Assets/Scripts/Behaviors/MovementBehavior.cs:125-161 | the jump step does not read `MovementLocked` |
| Movement.DoubleJumpNeverCleared | Assets/Scripts/Behaviors/MovementBehavior.cs:125-161 | once `hasDoubledJumped` is set it stays set over any ticks, landings included |
| Movement.AirJumpsAtMostOnce | Assets/Scripts/Behaviors/MovementBehavior.cs:127-137 | over any ticks, at most one jump fires in the air, and none if the double jump was already used |
| Movement.AirborneRun | Assets/Scripts/Behaviors/MovementBehavior.cs:127-160 | over airborne ticks where no jump fires, the vertical velocity changes by exactly the gravity of each tick, and the landing count and double-jump flag are unchanged |
| Movement.GroundedRun | Assets/Scripts/Behaviors/MovementBehavior.cs:143-158 | over grounded ticks without a jump request, the landing count rises by one per tick; while the count stays at most 2 the velocity only gains gravity; from count 3 the velocity is the last tick's gravity alone |
| Movement.DefaultJumpTick | Assets/Scripts/Behaviors/MovementBehavior.cs:18-19 | with the default jump force 8 and gravity -9.81, a jump tick under gravity leaves the velocity at 8 plus one frame of gravity, and a grounded tick long after landing leaves one frame of gravity alone |
| Movement.MovementBehavior.constructor | Assets/Scripts/Behaviors/MovementBehavior.cs:32-41 | a fresh behaviour is at rest, facing its transform's yaw, ungrounded, with no double jump and a zero landing count |
| Movement.MovementBehavior.HandleMovement | Assets/Scripts/Behaviors/MovementBehavior.cs:67-74 | the five step methods in order move the behaviour, the input flags, the animator and the controller log to `Tick` of the old state |
| Movement.MovementBehavior.PerformGroundCheck | Assets/Scripts/Behaviors/MovementBehavior.cs:76-79 | the method's effect is `GroundCheck` |
| Movement.MovementBehavior.HandleDirection | Assets/Scripts/Behaviors/MovementBehavior.cs:82-99 | the method's effect is `Direction` |
| Movement.MovementBehavior.HandleSpeedAndMovement | Assets/Scripts/Behaviors/MovementBehavior.cs:102-123 | the method's effect is `SpeedAndMovement` |
| Movement.MovementBehavior.HandleJumping | Assets/Scripts/Behaviors/MovementBehavior.cs:125-161 | the method's effect is `Jumping` |
| Movement.MovementBehavior.HandleAnimations | Assets/Scripts/Behaviors/MovementBehavior.cs:163-176 | the animator's parameters are set to the current speed, vertical velocity, input length and components, run/crouch/grounded flags and input dot; the jump parameters are kept |

## Left out

- Null references are not modelled. The source throws on an unassigned `cameraTransform`, a missing `InputManager.Instance` or a missing input provider, and that ends the frame's update part-way. For example, a null camera at MovementBehavior.cs:91 skips the speed, jump and animation steps, and MovementBehavior.cs:183 reads the camera on every tick after the other parameters are set. The model assumes every reference is set. The code has no degraded mode that skips rotation when the camera is missing.
- Animator triggers: the `Jump` trigger is a flag that stays set until `ResetTrigger`. The animator's own consumption of a trigger by a transition is not modelled.
- Engine I/O: `Physics.CheckSphere`, the ground-check radius and layer mask, `Time.deltaTime` and the camera transform. Their per-frame answers are inputs.
- The engine math: `Mathf.SmoothDamp`, `Mathf.SmoothDampAngle`, `Mathf.Atan2`, `transform.forward`, `TransformDirection` and the vector dot product in `GetMoveInputDot`. These are arbitrary functions, so no property of their values is claimed.
- Physics of `CharacterController.Move`: collisions, slopes and step offset are not modelled. Only the requested displacements are recorded.
- IsMagnitude: the length of the move input is only known to be non-negative and zero exactly for the zero vector. Its square-root value is not modelled.
- Normalized: the engine returns zero for vectors shorter than 1e-5. The model returns zero only for the zero vector, and unit length is not stated.
- Floating point: rounding, infinities and NaN are not modelled, because values are exact reals.
- `transform.eulerAngles`: the engine's reduction of angles to [0, 360) when read back, and the zeroing of the other two angles, are not modelled. The yaw is the value last written.
- Unity's destroyed-object semantics are not modelled. `Destroy` only sets a `destroyed` flag, and a destroyed `InputManager` still answers.
- `DontDestroyOnLoad`, the cursor handling in `InputManager.Awake`, the `PlayerInputActions` object, listener registration, and `OnEnable`/`OnDisable`: these are scene and Input System plumbing. Callbacks are modelled as events applied to the manager.
- `LookInput`: no callback writes it, so it only ever holds its initial value.
- The camera's field-of-view `Mathf.Lerp` and every Cinemachine call except the input provider's `enabled` switch are not modelled.
- `SecondaryFingerTouched`, `PrimaryFinger` and `SecondaryFinger` are not declared in `InputManager`. Whether the secondary finger is down, and the finger distance, are frame inputs of the zoom step.
- A missing `CinemachineFreeLook` at `Start` is not modelled. The constructor takes the start zoom value in its place.
- `OnDrawGizmos` is debug drawing. `Update` in `MovementBehavior` is empty. The animator parameter hashes are names.
- PlayerController.cs is not part of this model: it only wires animator triggers, and it uses input flags that `InputManager` does not declare.
- FacingTargetBehavior.cs is not part of this model: it only calls `Atan2` and `SmoothDampAngle`, with no discrete logic.
- Run lemmas (`DoubleJumpNeverCleared`, `AirJumpsAtMostOnce`, `AirborneRun`, `GroundedRun`) take the input flags each tick sees as given. What input callbacks and lock hooks wrote between ticks is covered by `Input.LastWriteWins` and `RootMotion.CallbacksLastWriteWins`. The latter covers the hooks of one animator: each hook writes `applyRootMotion` on the animator passed to it, and the three flags on the shared manager.
