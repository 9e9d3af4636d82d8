/**
 * `RootMotionBehavior`: an animation-state behaviour whose enter and exit
 * callbacks overwrite the movement lock, the rotation lock, the gravity
 * switch and the animator's root-motion switch with configured values.
 */
module RootMotion {
  import opened Input
  import opened UnityComponents

  /** The eight serialized settings of one behaviour instance. */
  datatype LockConfig = LockConfig(
    lockMovementOnEnter: bool,
    lockMovementOnExit: bool,
    lockRotationOnEnter: bool,
    lockRotationOnExit: bool,
    affectedByGravityOnEnter: bool,
    affectedByGravityOnExit: bool,
    enableRootMotionOnEnter: bool,
    enableRootMotionOnExit: bool)

  /** The settings' initialisers: no locks, gravity on, root motion on while in the state. */
  const DefaultLockConfig := LockConfig(false, false, false, false, true, true, true, false)

  datatype Hook = Enter | Exit

  /** The four values one callback writes. */
  datatype LockSettings = LockSettings(
    movementLocked: bool,
    rotationLocked: bool,
    affectedByGravity: bool,
    applyRootMotion: bool)

  /** The values a behaviour with configuration `c` writes from callback `h`. */
  function Settings(c: LockConfig, h: Hook): LockSettings {
    match h
    case Enter => LockSettings(c.lockMovementOnEnter, c.lockRotationOnEnter,
                               c.affectedByGravityOnEnter, c.enableRootMotionOnEnter)
    case Exit => LockSettings(c.lockMovementOnExit, c.lockRotationOnExit,
                              c.affectedByGravityOnExit, c.enableRootMotionOnExit)
  }

  /** The input flags after a callback has written its three lock values. */
  function WithLocks(f: InputFlags, s: LockSettings): (r: InputFlags)
    ensures r.movementLocked == s.movementLocked
    ensures r.rotationLocked == s.rotationLocked
    ensures r.affectedByGravity == s.affectedByGravity
    ensures r.moveInput == f.moveInput && r.lookInput == f.lookInput
    ensures r.shouldJump == f.shouldJump && r.shouldRun == f.shouldRun && r.shouldCrouch == f.shouldCrouch
  {
    f.(movementLocked := s.movementLocked, rotationLocked := s.rotationLocked,
       affectedByGravity := s.affectedByGravity)
  }

  /** The state the callbacks of one animator write: the shared input flags and that animator's root-motion switch. */
  datatype LockState = LockState(flags: InputFlags, applyRootMotion: bool)

  /** One callback of some behaviour instance. */
  datatype Callback = Callback(config: LockConfig, hook: Hook)

  function Fire(st: LockState, cb: Callback): LockState {
    var s := Settings(cb.config, cb.hook);
    LockState(WithLocks(st.flags, s), s.applyRootMotion)
  }

  /** A sequence of callbacks, oldest first, from any behaviours of any states. */
  function FireAll(st: LockState, cbs: seq<Callback>): LockState
    decreases |cbs|
  {
    if cbs == [] then st else Fire(FireAll(st, cbs[..|cbs| - 1]), cbs[|cbs| - 1])
  }

  function Current(st: LockState): LockSettings {
    LockSettings(st.flags.movementLocked, st.flags.rotationLocked,
                 st.flags.affectedByGravity, st.applyRootMotion)
  }

  /**
   * After an enter callback the three flags and root motion hold the
   * behaviour's on-enter settings; after an exit callback they hold its
   * on-exit settings, whatever the enter callback had written.
   */
  lemma EnterAndExitSettings(st: LockState, c: LockConfig)
    ensures Current(Fire(st, Callback(c, Enter)))
         == LockSettings(c.lockMovementOnEnter, c.lockRotationOnEnter,
                         c.affectedByGravityOnEnter, c.enableRootMotionOnEnter)
    ensures Current(Fire(st, Callback(c, Exit)))
         == LockSettings(c.lockMovementOnExit, c.lockRotationOnExit,
                         c.affectedByGravityOnExit, c.enableRootMotionOnExit)
    ensures Fire(Fire(st, Callback(c, Enter)), Callback(c, Exit)).applyRootMotion == c.enableRootMotionOnExit
    ensures Fire(Fire(st, Callback(c, Enter)), Callback(c, Exit)).flags == Fire(st, Callback(c, Exit)).flags
  {
  }

  /**
   * Whatever callbacks fire on the states of one animator, in whatever
   * order, from any behaviours: the four values are those written by the
   * last one, whatever earlier callbacks wrote, and the move vector and the
   * jump/run/crouch flags are as before. (The three flags are shared by all
   * animators; `applyRootMotion` is the one animator's own.)
   */
  lemma {:induction false} CallbacksLastWriteWins(st: LockState, cbs: seq<Callback>)
    ensures cbs != [] ==> Current(FireAll(st, cbs)) == Settings(cbs[|cbs| - 1].config, cbs[|cbs| - 1].hook)
    ensures FireAll(st, cbs).flags.moveInput == st.flags.moveInput
    ensures FireAll(st, cbs).flags.lookInput == st.flags.lookInput
    ensures FireAll(st, cbs).flags.shouldJump == st.flags.shouldJump
    ensures FireAll(st, cbs).flags.shouldRun == st.flags.shouldRun
    ensures FireAll(st, cbs).flags.shouldCrouch == st.flags.shouldCrouch
    decreases |cbs|
  {
    if cbs != [] {
      CallbacksLastWriteWins(st, cbs[..|cbs| - 1]);
    }
  }

  /**
   * A state with the default configuration, entered and then left, leaves
   * the character unlocked, under gravity and without root motion; while in
   * the state, root motion is on and nothing is locked.
   */
  lemma DefaultEnterThenExit(st: LockState)
    ensures Current(Fire(st, Callback(DefaultLockConfig, Enter))) == LockSettings(false, false, true, true)
    ensures Current(FireAll(st, [Callback(DefaultLockConfig, Enter), Callback(DefaultLockConfig, Exit)]))
         == LockSettings(false, false, true, false)
  {
    CallbacksLastWriteWins(st, [Callback(DefaultLockConfig, Enter), Callback(DefaultLockConfig, Exit)]);
  }

  class RootMotionBehavior {
    const config: LockConfig

    constructor (config: LockConfig)
      ensures this.config == config
    {
      this.config := config;
    }

    method OnStateEnter(animator: Animator, input: InputManager)
      modifies animator`applyRootMotion, input`movementLocked, input`rotationLocked, input`affectedByGravity
      ensures LockState(input.Flags(), animator.applyRootMotion)
           == Fire(LockState(old(input.Flags()), old(animator.applyRootMotion)), Callback(config, Enter))
    {
      animator.applyRootMotion := config.enableRootMotionOnEnter;
      input.movementLocked := config.lockMovementOnEnter;
      input.rotationLocked := config.lockRotationOnEnter;
      input.affectedByGravity := config.affectedByGravityOnEnter;
    }

    method OnStateExit(animator: Animator, input: InputManager)
      modifies animator`applyRootMotion, input`movementLocked, input`rotationLocked, input`affectedByGravity
      ensures LockState(input.Flags(), animator.applyRootMotion)
           == Fire(LockState(old(input.Flags()), old(animator.applyRootMotion)), Callback(config, Exit))
    {
      animator.applyRootMotion := config.enableRootMotionOnExit;
      input.movementLocked := config.lockMovementOnExit;
      input.rotationLocked := config.lockRotationOnExit;
      input.affectedByGravity := config.affectedByGravityOnExit;
    }
  }
}
