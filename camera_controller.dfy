/**
 * The pinch-zoom part of `CameraController`: a two-finger pinch, held while
 * the character is not being moved, turns the change of finger distance into
 * a change of the target zoom level, which is kept within the configured
 * bounds; camera rotation input is switched off for the length of the pinch.
 */
module Camera {
  import opened UnityMath

  datatype ZoomConfig = ZoomConfig(zoomSpeed: real, minZoom: real, maxZoom: real, zoomLerpSpeed: real)

  const DefaultZoomConfig := ZoomConfig(10.0, 10.0, 60.0, 2.0)

  /**
   * What one frame's zoom update reads: whether the secondary finger is
   * touching, the length of the move input, the distance between the two
   * fingers and the frame time.
   */
  datatype TouchFrame = TouchFrame(
    secondaryFingerTouched: bool,
    moveMagnitude: real,
    fingerDistance: real,
    deltaTime: real)

  /** The zoom fields of the controller and the camera input provider's `enabled` switch. */
  datatype ZoomState = ZoomState(
    isPinching: bool,
    initialPinchDistance: real,
    targetZoomLevel: real,
    rotationEnabled: bool)

  /** The pinch condition: secondary finger down and no move input. */
  predicate PinchHeld(t: TouchFrame) {
    t.secondaryFingerTouched && t.moveMagnitude == 0.0
  }

  /** One `HandleCameraZoom` call, without the field-of-view interpolation. */
  function ZoomStep(c: ZoomConfig, s: ZoomState, t: TouchFrame): (r: ZoomState)
    ensures c.minZoom <= c.maxZoom ==> c.minZoom <= r.targetZoomLevel <= c.maxZoom
    ensures r.isPinching == PinchHeld(t)
    // a pinch begins: rotation off, distance stored, no zoom change beyond the clamp
    ensures PinchHeld(t) && !s.isPinching ==>
      !r.rotationEnabled && r.initialPinchDistance == t.fingerDistance &&
      r.targetZoomLevel == Clamp(s.targetZoomLevel, c.minZoom, c.maxZoom)
    // a pinch continues: zoom by the decrease of the distance, which becomes the stored one
    ensures PinchHeld(t) && s.isPinching ==>
      r.rotationEnabled == s.rotationEnabled && r.initialPinchDistance == t.fingerDistance &&
      r.targetZoomLevel == Clamp(s.targetZoomLevel + (s.initialPinchDistance - t.fingerDistance) * c.zoomSpeed * t.deltaTime,
                                 c.minZoom, c.maxZoom)
    // no pinch: rotation back on if a pinch just ended, otherwise untouched
    ensures !PinchHeld(t) ==>
      r.rotationEnabled == (s.isPinching || s.rotationEnabled) &&
      r.initialPinchDistance == s.initialPinchDistance &&
      r.targetZoomLevel == Clamp(s.targetZoomLevel, c.minZoom, c.maxZoom)
  {
    var zoomDelta := if PinchHeld(t) && s.isPinching then s.initialPinchDistance - t.fingerDistance else 0.0;
    var initial := if PinchHeld(t) then t.fingerDistance else s.initialPinchDistance;
    var enabled :=
      if PinchHeld(t) then (if s.isPinching then s.rotationEnabled else false)
      else (if s.isPinching then true else s.rotationEnabled);
    var target := s.targetZoomLevel + zoomDelta * c.zoomSpeed * t.deltaTime;
    ZoomState(PinchHeld(t), initial, Clamp(target, c.minZoom, c.maxZoom), enabled)
  }

  /** Successive frames, oldest first. */
  function ZoomRun(c: ZoomConfig, s: ZoomState, ts: seq<TouchFrame>): ZoomState
    decreases |ts|
  {
    if ts == [] then s else ZoomRun(c, ZoomStep(c, s, ts[0]), ts[1..])
  }

  /**
   * Starting with rotation enabled exactly when no pinch is in progress (as
   * after `Start`, with the input provider enabled), that stays so after any
   * frames; and after at least one frame the target zoom level lies within
   * the bounds.
   */
  lemma {:induction false} ZoomRunInvariants(c: ZoomConfig, s: ZoomState, ts: seq<TouchFrame>)
    requires s.rotationEnabled == !s.isPinching
    ensures ZoomRun(c, s, ts).rotationEnabled == !ZoomRun(c, s, ts).isPinching
    ensures ts != [] && c.minZoom <= c.maxZoom ==>
      c.minZoom <= ZoomRun(c, s, ts).targetZoomLevel <= c.maxZoom
    decreases |ts|
  {
    if ts != [] {
      var s' := ZoomStep(c, s, ts[0]);
      ZoomRunInvariants(c, s', ts[1..]);
    }
  }

  /**
   * With the fields' initialisers, the target zoom lies between 10 and 60
   * after any frame, whatever the start value and the pinch.
   */
  lemma DefaultZoomBounds(s: ZoomState, t: TouchFrame)
    ensures 10.0 <= ZoomStep(DefaultZoomConfig, s, t).targetZoomLevel <= 60.0
  {
  }

  /** The Cinemachine input provider; while disabled the camera does not orbit. */
  class InputProvider {
    var enabled: bool

    constructor (enabled: bool)
      ensures this.enabled == enabled
    {
      this.enabled := enabled;
    }
  }

  class CameraController {
    const config: ZoomConfig
    const inputProvider: InputProvider
    var targetZoomLevel: real
    var initialPinchDistance: real
    var isPinching: bool

    function State(): ZoomState
      reads this, inputProvider
    {
      ZoomState(isPinching, initialPinchDistance, targetZoomLevel, inputProvider.enabled)
    }

    /**
     * The controller after `Start`: `startZoom` is the lens field of view
     * when a FreeLook camera is attached, and 0 otherwise.
     */
    constructor (config: ZoomConfig, inputProvider: InputProvider, startZoom: real)
      ensures this.config == config && this.inputProvider == inputProvider
      ensures !isPinching && initialPinchDistance == 0.0 && targetZoomLevel == startZoom
    {
      this.config := config;
      this.inputProvider := inputProvider;
      targetZoomLevel := startZoom;
      initialPinchDistance := 0.0;
      isPinching := false;
    }

    method DisableCameraRotation()
      modifies inputProvider
      ensures !inputProvider.enabled
    {
      inputProvider.enabled := false;
    }

    method EnableCameraRotation()
      modifies inputProvider
      ensures inputProvider.enabled
    {
      inputProvider.enabled := true;
    }

    method HandleCameraZoom(t: TouchFrame)
      modifies this, inputProvider
      ensures State() == ZoomStep(config, old(State()), t)
    {
      var zoomDelta := 0.0;
      if t.secondaryFingerTouched && t.moveMagnitude == 0.0 {
        if !isPinching {
          initialPinchDistance := t.fingerDistance;
          DisableCameraRotation();
          isPinching := true;
        } else {
          var newPinchDistance := t.fingerDistance;
          zoomDelta := initialPinchDistance - newPinchDistance;
          initialPinchDistance := newPinchDistance;
        }
      } else {
        if isPinching {
          EnableCameraRotation();
        }
        isPinching := false;
      }
      targetZoomLevel := targetZoomLevel + zoomDelta * config.zoomSpeed * t.deltaTime;
      targetZoomLevel := Clamp(targetZoomLevel, config.minZoom, config.maxZoom);
    }
  }
}
