/**
 * The interaction state machine of an immersive session (js/webxr-ar.js),
 * as functions on the values of its closure variables and of the model and
 * shadow transforms it writes. Each touch handler and each animation frame is
 * one atomic step.
 */
module Gestures {
  import opened Wrappers

  datatype Vec3 = Vec3(x: real, y: real, z: real)

  /** Radians of yaw per pixel of horizontal drag. */
  const RotationPerPixel: real := 0.01
  /** Bounds of the pinch scale: absolute values of `model.scale`. */
  const MinScale: real := 0.5
  const MaxScale: real := 1.5
  /** How far the shadow plane sits below the model. */
  const ShadowDrop: real := 0.001

  function Uniform(s: real): Vec3 { Vec3(s, s, s) }

  /** The shadow's position for a model at `p`. */
  function Below(p: Vec3): Vec3 { Vec3(p.x, p.y - ShadowDrop, p.z) }

  /** `Math.max` and `Math.min` on reals. */
  function Max(a: real, b: real): real { if a >= b then a else b }
  function Min(a: real, b: real): real { if a <= b then a else b }

  /** `Math.max(0.5, Math.min(1.5, v))` */
  function ClampScale(v: real): (r: real)
    ensures MinScale <= r <= MaxScale
    ensures MinScale <= v <= MaxScale ==> r == v
    ensures v < MinScale ==> r == MinScale
    ensures v > MaxScale ==> r == MaxScale
  {
    Max(MinScale, Min(MaxScale, v))
  }

  /** The scale a pinch sets: the recorded scale times the distance ratio, clamped. */
  function PinchScale(initialScale: real, distance: real, startDistance: real): (r: real)
    requires startDistance > 0.0
    ensures MinScale <= r <= MaxScale
    ensures MinScale <= initialScale * (distance / startDistance) <= MaxScale ==> r == initialScale * (distance / startDistance)
  {
    ClampScale(initialScale * (distance / startDistance))
  }

  /**
   * The clamp bounds the absolute scale, not a ratio of the scale recorded at
   * touchstart: a model whose size-normalised scale is below 0.5 grows to 0.5
   * on a pinch whose fingers have not moved.
   */
  lemma PinchClampIsAbsolute(initialScale: real, d: real)
    requires 0.0 < initialScale < MinScale && d > 0.0
    ensures PinchScale(initialScale, d, d) == MinScale != initialScale
  {
    assert initialScale * (d / d) == initialScale;
  }

  /**
   * A hit-test result as the frame handler uses it: the position of
   * `getPose(localSpace)`, or None when `getPose` returns null.
   */
  datatype HitResult = HitResult(pose: Option<Vec3>)

  /** The values of the closure variables and of the transforms the handlers write. */
  datatype Interaction = Interaction(
    placed: bool,
    anchored: bool,                      // modelAnchor !== null
    hitTestResult: Option<HitResult>,    // the last hit result read
    touchStartX: real,
    touchStartY: real,
    touchStartDistance: real,
    initialRotation: real,
    initialScale: real,
    isRotating: bool,
    isScaling: bool,
    yaw: real,                      // model.rotation.y
    scale: Vec3,                    // model.scale
    modelVisible: bool,
    modelPosition: Vec3,
    shadowVisible: bool,
    shadowPosition: Vec3)

  /**
   * The state when the session has started: the closure variables at their
   * initial values, the model hidden with the scale and position it was loaded
   * with, the shadow hidden just below the origin.
   */
  function Initial(modelScale: real, modelPosition: Vec3): Interaction
  {
    Interaction(false, false, None, 0.0, 0.0, 0.0, 0.0, 1.0, false, false,
                0.0, Uniform(modelScale), false, modelPosition, false, Vec3(0.0, -ShadowDrop, 0.0))
  }

  /**
   * The facts every reachable state keeps: a pinch in progress has a positive
   * start distance, the model and shadow are visible exactly once placed, a
   * placed model is anchored (an anchor need not mean placed: see
   * FrameRendered), the placed model sits at the pose of the hit it was placed
   * on with the shadow just below, and the scale is the same on all axes.
   */
  ghost predicate Inv(g: Interaction)
  {
    && (g.isScaling ==> g.touchStartDistance > 0.0)
    && (g.placed ==> g.anchored)
    && g.modelVisible == g.placed
    && g.shadowVisible == g.placed
    && (g.placed ==> g.hitTestResult == Some(HitResult(Some(g.modelPosition))) && g.shadowPosition == Below(g.modelPosition))
    && g.scale == Uniform(g.scale.x)
  }

  lemma InitialSatisfiesInv(modelScale: real, modelPosition: Vec3)
    ensures Inv(Initial(modelScale, modelPosition))
  {
  }

  /**
   * `touchstart` with `touchCount` touches; `x`, `y` are the first touch's
   * client coordinates and `distance` the distance between the first two.
   */
  function TouchStarted(g: Interaction, touchCount: nat, x: real, y: real, distance: real): Interaction
  {
    if touchCount == 1 then
      g.(touchStartX := x, touchStartY := y, isRotating := true, initialRotation := g.yaw)
    else if touchCount == 2 then
      g.(isRotating := false, isScaling := true, touchStartDistance := distance, initialScale := g.scale.x)
    else
      g
  }

  /**
   * `touchmove`; reading a touch that is not there raises before anything is
   * written, so too few touches leave the state as it is.
   */
  function TouchMoved(g: Interaction, touchCount: nat, x: real, distance: real): Interaction
    requires g.isScaling ==> g.touchStartDistance > 0.0
  {
    if g.isRotating && g.placed then
      if touchCount >= 1 then g.(yaw := g.initialRotation + (x - g.touchStartX) * RotationPerPixel) else g
    else if g.isScaling && g.placed then
      if touchCount >= 2 then g.(scale := Uniform(PinchScale(g.initialScale, distance, g.touchStartDistance))) else g
    else
      g
  }

  /** `touchend` */
  function TouchEnded(g: Interaction): Interaction
  {
    g.(isRotating := false, isScaling := false)
  }

  /**
   * The placement part of `onXRFrame`: `hasPose` is whether the frame has a
   * viewer pose, `hitCount` the number of hit results, `firstHit` the first,
   * and `anchorCreated` whether creating the anchor succeeded (a constructor
   * that raises leaves `modelAnchor` null). The anchor is stored before the
   * hit's pose is read; when that pose is null, reading its transform raises,
   * the frame ends with the anchor set and the model not placed, and the
   * `!modelAnchor` guard keeps every later frame from placing it.
   */
  function FrameRendered(g: Interaction, hasPose: bool, hitCount: nat, firstHit: HitResult, anchorCreated: bool): Interaction
  {
    if hasPose && !g.placed && hitCount > 0 then
      var read := g.(hitTestResult := Some(firstHit));
      if !read.anchored && anchorCreated then
        var withAnchor := read.(anchored := true);
        match firstHit.pose
        case None => withAnchor
        case Some(p) =>
          withAnchor.(modelPosition := p, modelVisible := true,
                      shadowPosition := Below(p), shadowVisible := true,
                      placed := true)
      else
        read
    else
      g
  }

  // ---------------------------------------------------------------------------
  // Properties of single steps
  // ---------------------------------------------------------------------------

  /**
   * One finger starts a rotation from the current yaw and leaves a pinch flag
   * alone; two fingers switch to scaling from the current scale; any other
   * count changes nothing.
   */
  lemma TouchStartGestures(g: Interaction, touchCount: nat, x: real, y: real, distance: real)
    ensures var r := TouchStarted(g, touchCount, x, y, distance);
      && (touchCount == 1 ==> r.isRotating && r.touchStartX == x && r.initialRotation == g.yaw && r.isScaling == g.isScaling)
      && (touchCount == 2 ==> !r.isRotating && r.isScaling && r.touchStartDistance == distance && r.initialScale == g.scale.x)
      && (touchCount != 1 && touchCount != 2 ==> r == g)
      && r.placed == g.placed && r.yaw == g.yaw && r.scale == g.scale && r.modelPosition == g.modelPosition
  {
  }

  /** touchend ends every gesture and touches nothing else. */
  lemma TouchEndStopsGestures(g: Interaction)
    ensures !TouchEnded(g).isRotating && !TouchEnded(g).isScaling
    ensures TouchEnded(g).(isRotating := g.isRotating, isScaling := g.isScaling) == g
  {
  }

  /**
   * touchmove changes nothing before placement; rotation wins when both flags
   * are set; a rotation is linear in the drag; a pinch sets the same clamped
   * value on all three axes.
   */
  lemma TouchMoveGestures(g: Interaction, touchCount: nat, x: real, distance: real)
    requires Inv(g)
    ensures var r := TouchMoved(g, touchCount, x, distance);
      && (!g.placed ==> r == g)
      && (g.placed && g.isRotating && touchCount >= 1 ==>
            r == g.(yaw := g.initialRotation + RotationPerPixel * (x - g.touchStartX)))
      && (g.placed && !g.isRotating && g.isScaling && touchCount >= 2 ==>
            r.yaw == g.yaw && r.scale.x == r.scale.y == r.scale.z && MinScale <= r.scale.x <= MaxScale)
      && r.placed == g.placed && r.modelPosition == g.modelPosition && r.isRotating == g.isRotating && r.isScaling == g.isScaling
  {
  }

  /**
   * Placement happens exactly on a frame with a viewer pose and a hit, while
   * neither placed nor anchored, whose anchor is created and whose hit has a
   * pose; it shows model and shadow at that pose, the shadow just below. The
   * same frame with a null hit pose sets the anchor and places nothing; a
   * frame with a hit always records it while unplaced; a placed state is
   * left as it is.
   */
  lemma FramePlacesOnce(g: Interaction, hasPose: bool, hitCount: nat, firstHit: HitResult, anchorCreated: bool)
    requires Inv(g)
    ensures var r := FrameRendered(g, hasPose, hitCount, firstHit, anchorCreated);
      && (!g.placed && r.placed <==>
            !g.placed && !g.anchored && hasPose && hitCount > 0 && anchorCreated && firstHit.pose.Some?)
      && (!g.placed && r.placed ==>
            r.modelPosition == firstHit.pose.value && r.modelVisible && r.shadowVisible
            && r.shadowPosition == Below(firstHit.pose.value))
      && (!g.placed && !g.anchored && hasPose && hitCount > 0 && anchorCreated && firstHit.pose.None? ==>
            r.anchored && !r.placed && !r.modelVisible && r.hitTestResult == Some(firstHit))
      && (!g.placed && hasPose && hitCount > 0 ==> r.hitTestResult == Some(firstHit))
      && (g.placed ==> r == g)
  {
  }

  // ---------------------------------------------------------------------------
  // Runs of events
  // ---------------------------------------------------------------------------

  datatype TouchEvent =
    | TouchStart(touchCount: nat, x: real, y: real, distance: real)
    | TouchMove(moveCount: nat, moveX: real, moveDistance: real)
    | TouchEnd
    | Frame(hasPose: bool, hitCount: nat, firstHit: HitResult, anchorCreated: bool)

  /** Two coincident fingers (distance 0) are outside the model. */
  predicate Admissible(e: TouchEvent)
  {
    e.TouchStart? && e.touchCount == 2 ==> e.distance > 0.0
  }

  function Step(g: Interaction, e: TouchEvent): (r: Interaction)
    requires Inv(g) && Admissible(e)
    ensures Inv(r)
  {
    match e
    case TouchStart(n, x, y, d) => TouchStarted(g, n, x, y, d)
    case TouchMove(n, x, d) => TouchMoved(g, n, x, d)
    case TouchEnd => TouchEnded(g)
    case Frame(p, n, h, a) => FrameRendered(g, p, n, h, a)
  }

  /** The state after handling `es` in order. */
  function Run(g: Interaction, es: seq<TouchEvent>): (r: Interaction)
    requires Inv(g)
    requires forall i :: 0 <= i < |es| ==> Admissible(es[i])
    ensures Inv(r)
    decreases |es|
  {
    if es == [] then g else Run(Step(g, es[0]), es[1..])
  }

  /**
   * Placement is one-shot: once placed, no sequence of events moves or hides
   * the model or the shadow, and no later hit result is read.
   */
  lemma {:induction false} PlacementIsFinal(g: Interaction, es: seq<TouchEvent>)
    requires Inv(g) && g.placed
    requires forall i :: 0 <= i < |es| ==> Admissible(es[i])
    ensures var r := Run(g, es);
      && r.placed && r.modelVisible && r.shadowVisible
      && r.modelPosition == g.modelPosition && r.shadowPosition == g.shadowPosition
      && r.hitTestResult == g.hitTestResult
    decreases |es|
  {
    if es != [] {
      PlacementIsFinal(Step(g, es[0]), es[1..]);
    }
  }

  /** A frame that would place an unanchored model: pose, hit, anchor created, hit pose present. */
  predicate Placing(e: TouchEvent)
  {
    e.Frame? && e.hasPose && e.hitCount > 0 && e.anchorCreated && e.firstHit.pose.Some?
  }

  /** Before any placement the model and shadow stay hidden, whatever the touches. */
  lemma {:induction false} HiddenUntilPlaced(g: Interaction, es: seq<TouchEvent>)
    requires Inv(g) && !g.placed
    requires forall i :: 0 <= i < |es| ==> Admissible(es[i])
    requires forall i :: 0 <= i < |es| ==> !Placing(es[i])
    ensures var r := Run(g, es);
      !r.placed && !r.modelVisible && !r.shadowVisible && r.yaw == g.yaw && r.scale == g.scale
    decreases |es|
  {
    if es != [] {
      HiddenUntilPlaced(Step(g, es[0]), es[1..]);
    }
  }

  /**
   * After any sequence of events the scale is either the one the model was
   * loaded with or a value in [0.5, 1.5]: every pinch result is clamped.
   */
  lemma {:induction false} ScaleStaysClamped(g: Interaction, es: seq<TouchEvent>, loaded: real)
    requires Inv(g)
    requires forall i :: 0 <= i < |es| ==> Admissible(es[i])
    requires g.scale.x == loaded || MinScale <= g.scale.x <= MaxScale
    ensures var r := Run(g, es);
      r.scale == Uniform(r.scale.x) && (r.scale.x == loaded || MinScale <= r.scale.x <= MaxScale)
    decreases |es|
  {
    if es != [] {
      ScaleStaysClamped(Step(g, es[0]), es[1..], loaded);
    }
  }

  /**
   * An anchor without a placement is permanent: once a frame stored the
   * anchor but could not read the hit's pose, no sequence of events places,
   * shows or moves the model, while frames with hits keep overwriting the
   * stored hit result.
   */
  lemma {:induction false} AnchorWithoutPlacementIsStuck(g: Interaction, es: seq<TouchEvent>)
    requires Inv(g) && g.anchored && !g.placed
    requires forall i :: 0 <= i < |es| ==> Admissible(es[i])
    ensures var r := Run(g, es);
      && r.anchored && !r.placed && !r.modelVisible && !r.shadowVisible
      && r.modelPosition == g.modelPosition && r.yaw == g.yaw && r.scale == g.scale
    decreases |es|
  {
    if es != [] {
      AnchorWithoutPlacementIsStuck(Step(g, es[0]), es[1..]);
    }
  }

  /**
   * The stuck state is reachable in one frame from the state setup leaves:
   * a hit whose pose is null, with the anchor created.
   */
  lemma NullHitPoseStrandsModel(modelScale: real, modelPosition: Vec3, hitCount: nat)
    requires hitCount > 0
    ensures var r := FrameRendered(Initial(modelScale, modelPosition), true, hitCount, HitResult(None), true);
      && Inv(r) && r.anchored && !r.placed && !r.modelVisible
  {
  }
}
