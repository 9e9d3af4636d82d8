/**
 * The process-wide input state (`InputManager`): the move and look vectors,
 * the jump/run/crouch intent flags, the lock flags written by animation
 * states, and the Input System callbacks that overwrite them.
 */
module Input {
  import opened UnityMath

  datatype Option<T> = None | Some(value: T)

  /** The public properties of `InputManager`, as one value. */
  datatype InputFlags = InputFlags(
    moveInput: Vec2,
    lookInput: Vec2,
    shouldJump: bool,
    shouldRun: bool,
    shouldCrouch: bool,
    movementLocked: bool,
    rotationLocked: bool,
    affectedByGravity: bool)

  /** Every property at its C# default: zero vectors and `false`. */
  const InitialFlags := InputFlags(Zero2, Zero2, false, false, false, false, false, false)

  /** The performed/canceled callbacks registered in `Awake`, one per action and phase. */
  datatype InputEvent =
    | MovePerformed(value: Vec2)
    | MoveCanceled
    | JumpPerformed
    | JumpCanceled
    | RunPerformed
    | RunCanceled
    | CrouchPerformed
    | CrouchCanceled

  /** What a callback does to the flags. */
  function Apply(f: InputFlags, e: InputEvent): (r: InputFlags)
    // each callback writes one property ...
    ensures r.moveInput == if e.MovePerformed? then e.value else if e.MoveCanceled? then Zero2 else f.moveInput
    ensures r.shouldJump == if e.JumpPerformed? then true else if e.JumpCanceled? then false else f.shouldJump
    ensures r.shouldRun == if e.RunPerformed? then true else if e.RunCanceled? then false else f.shouldRun
    ensures r.shouldCrouch == if e.CrouchPerformed? then true else if e.CrouchCanceled? then false else f.shouldCrouch
    // ... and never the look vector or a lock
    ensures r.lookInput == f.lookInput
    ensures r.movementLocked == f.movementLocked && r.rotationLocked == f.rotationLocked
    ensures r.affectedByGravity == f.affectedByGravity
  {
    match e
    case MovePerformed(v) => f.(moveInput := v)
    case MoveCanceled => f.(moveInput := Zero2)
    case JumpPerformed => f.(shouldJump := true)
    case JumpCanceled => f.(shouldJump := false)
    case RunPerformed => f.(shouldRun := true)
    case RunCanceled => f.(shouldRun := false)
    case CrouchPerformed => f.(shouldCrouch := true)
    case CrouchCanceled => f.(shouldCrouch := false)
  }

  /** The callbacks in `es`, oldest first. */
  function ApplyAll(f: InputFlags, es: seq<InputEvent>): InputFlags
    decreases |es|
  {
    if es == [] then f else Apply(ApplyAll(f, es[..|es| - 1]), es[|es| - 1])
  }

  /** The value one callback writes to the move vector, if it writes one. */
  function MoveWrite(e: InputEvent): Option<Vec2> {
    match e
    case MovePerformed(v) => Some(v)
    case MoveCanceled => Some(Zero2)
    case _ => None
  }

  function JumpWrite(e: InputEvent): Option<bool> {
    if e.JumpPerformed? then Some(true) else if e.JumpCanceled? then Some(false) else None
  }

  function RunWrite(e: InputEvent): Option<bool> {
    if e.RunPerformed? then Some(true) else if e.RunCanceled? then Some(false) else None
  }

  function CrouchWrite(e: InputEvent): Option<bool> {
    if e.CrouchPerformed? then Some(true) else if e.CrouchCanceled? then Some(false) else None
  }

  /** The value written last by the callbacks in `es`, or `initial` when none writes. */
  function LastWrite<T>(es: seq<InputEvent>, write: InputEvent -> Option<T>, initial: T): T
    decreases |es|
  {
    if es == [] then initial
    else match write(es[|es| - 1])
      case Some(v) => v
      case None => LastWrite(es[..|es| - 1], write, initial)
  }

  /**
   * Last write wins, field by field: after any sequence of callbacks each
   * intent property holds the value its own action wrote last (or its old
   * value), and the look vector and the locks are as before.
   */
  lemma {:induction false} LastWriteWins(f: InputFlags, es: seq<InputEvent>)
    ensures ApplyAll(f, es) == InputFlags(
      LastWrite(es, MoveWrite, f.moveInput),
      f.lookInput,
      LastWrite(es, JumpWrite, f.shouldJump),
      LastWrite(es, RunWrite, f.shouldRun),
      LastWrite(es, CrouchWrite, f.shouldCrouch),
      f.movementLocked,
      f.rotationLocked,
      f.affectedByGravity)
    decreases |es|
  {
    if es != [] {
      LastWriteWins(f, es[..|es| - 1]);
    }
  }

  /** The static `InputManager.Instance`. */
  class Singleton {
    var instance: InputManager?

    constructor ()
      ensures instance == null
    {
      instance := null;
    }
  }

  class InputManager {
    var moveInput: Vec2
    var lookInput: Vec2
    var shouldJump: bool
    var shouldRun: bool
    var shouldCrouch: bool
    var movementLocked: bool
    var rotationLocked: bool
    var affectedByGravity: bool
    /** `Destroy(gameObject)` has been called on this instance. */
    var destroyed: bool

    function Flags(): InputFlags
      reads this
    {
      InputFlags(moveInput, lookInput, shouldJump, shouldRun, shouldCrouch,
                 movementLocked, rotationLocked, affectedByGravity)
    }

    constructor ()
      ensures Flags() == InitialFlags && !destroyed
    {
      moveInput, lookInput := Zero2, Zero2;
      shouldJump, shouldRun, shouldCrouch := false, false, false;
      movementLocked, rotationLocked, affectedByGravity := false, false, false;
      destroyed := false;
    }

    /**
     * The singleton rule of `Awake`: the first instance to wake installs
     * itself; any later one leaves the installed instance in place and is
     * destroyed.
     */
    method Awake(singleton: Singleton)
      modifies singleton, this`destroyed
      ensures old(singleton.instance) == null ==> singleton.instance == this && destroyed == old(destroyed)
      ensures old(singleton.instance) != null ==> singleton.instance == old(singleton.instance) && destroyed
    {
      if singleton.instance == null {
        singleton.instance := this;
      } else {
        destroyed := true;
      }
    }

    /** One of the performed/canceled callbacks registered in `Awake`. */
    method Handle(e: InputEvent)
      modifies this`moveInput, this`shouldJump, this`shouldRun, this`shouldCrouch
      ensures Flags() == Apply(old(Flags()), e)
    {
      match e
      case MovePerformed(v) => moveInput := v;
      case MoveCanceled => moveInput := Zero2;
      case JumpPerformed => shouldJump := true;
      case JumpCanceled => shouldJump := false;
      case RunPerformed => shouldRun := true;
      case RunCanceled => shouldRun := false;
      case CrouchPerformed => shouldCrouch := true;
      case CrouchCanceled => shouldCrouch := false;
    }
  }
}
