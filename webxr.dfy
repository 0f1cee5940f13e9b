/**
 * loadWebXRAr (js/webxr-ar.js): the support checks, the hand-off to the
 * fallback viewer when any setup step fails, and the running session whose
 * handlers update the interaction state in place.
 */
module WebXR {
  import opened Wrappers
  import opened Dom
  import opened Gestures
  import InPageViewer

  /**
   * The outcomes of the asynchronous setup steps, read as ordered steps:
   * the `isSessionSupported('immersive-ar')` probe, the model load (with the
   * scale and position size-normalisation gave it), the placeholder texture
   * load tried when the model load fails, the `requestSession` call, and the
   * steps that configure the granted session (render state, reference spaces
   * and hit-test source).
   */
  datatype XrSetup = XrSetup(
    arSupported: bool,
    modelLoaded: bool,
    normalisedScale: real,
    centringOffset: Vec3,
    textureLoaded: bool,
    sessionGranted: bool,
    sessionConfigured: bool)

  /** Something to show exists (the model, or the image placeholder). */
  predicate AssetLoaded(xr: XrSetup)
  {
    xr.modelLoaded || xr.textureLoaded
  }

  /** Every step after the probe succeeds. */
  predicate SetupCompletes(xr: XrSetup)
  {
    AssetLoaded(xr) && xr.sessionGranted && xr.sessionConfigured
  }

  /**
   * The session was granted but a configuring step raised: the `catch` hands
   * off without ending it, and no `end` listener was registered for it.
   */
  predicate SessionLeftRunning(xr: XrSetup)
  {
    AssetLoaded(xr) && xr.sessionGranted && !xr.sessionConfigured
  }

  /** The scale the shown object starts with: the normalised one, or 1 for the placeholder. */
  function LoadedScale(xr: XrSetup): real
  {
    if xr.modelLoaded then xr.normalisedScale else 1.0
  }

  /** Where the shown object starts: centred, or at the origin for the placeholder. */
  function LoadedPosition(xr: XrSetup): Vec3
  {
    if xr.modelLoaded then xr.centringOffset else Vec3(0.0, 0.0, 0.0)
  }

  /**
   * Both containers after loadWebXRAr, whether a session runs with its
   * handlers, whether a granted session was abandoned by the hand-off, and
   * what escaped.
   */
  datatype Launch = Launch(ar: Panel, fallback: Panel, started: bool, abandoned: bool, raised: Option<string>)

  /** The `catch` block: hide the AR container, show and start the fallback viewer. */
  function HandedOff(ar: Panel, fallback: Panel, abandoned: bool, fault: Option<string>): Launch
  {
    var viewer := InPageViewer.ViewerOpened(fallback.(hidden := false), true, fault);
    Launch(ar.(hidden := true), viewer.panel, false, abandoned, viewer.raised)
  }

  /**
   * loadWebXRAr(container) with `fallback` the fallback container: without the
   * rendering library it returns at once; a missing API or a negative probe
   * hands off before the canvas exists; a failed asset or session step hands
   * off after it was appended, and a failure after `requestSession` resolved
   * leaves the granted session running.
   */
  function Launched(ar: Panel, fallback: Panel, canvasId: nat, threeLoaded: bool, hasXrApi: bool,
                    xr: XrSetup, fault: Option<string>): (l: Launch)
    ensures l.started <==> threeLoaded && hasXrApi && xr.arSupported && SetupCompletes(xr)
    ensures l.abandoned <==> threeLoaded && hasXrApi && xr.arSupported && SessionLeftRunning(xr)
    ensures !(l.started && l.abandoned)
    ensures l.started ==>
      l.ar == ar.(children := ar.children + [XrCanvas(canvasId)]) && l.fallback == fallback && l.raised == None
    ensures threeLoaded && !l.started ==>
      l.ar.hidden && !l.fallback.hidden && l.fallback.children == fallback.children + [ViewerCanvas] && l.raised == fault
    ensures threeLoaded && !(hasXrApi && xr.arSupported) ==> l.ar.children == ar.children
    ensures threeLoaded && hasXrApi && xr.arSupported ==> l.ar.children == ar.children + [XrCanvas(canvasId)]
    ensures !threeLoaded ==> l == Launch(ar, fallback, false, false, None)
  {
    if !threeLoaded then
      Launch(ar, fallback, false, false, None)
    else if !hasXrApi || !xr.arSupported then
      HandedOff(ar, fallback, false, fault)
    else
      var withCanvas := ar.(children := ar.children + [XrCanvas(canvasId)]);
      if !AssetLoaded(xr) || !xr.sessionGranted then HandedOff(withCanvas, fallback, false, fault)
      else if !xr.sessionConfigured then HandedOff(withCanvas, fallback, true, fault)
      else Launch(withCanvas, fallback, true, false, None)
  }

  /** A running immersive session: the closure of loadWebXRAr after setup. */
  class ArSession {
    const container: Container
    const canvas: Node
    var placed: bool
    var anchored: bool
    var hitTestResult: Option<HitResult>
    var touchStartX: real
    var touchStartY: real
    var touchStartDistance: real
    var initialRotation: real
    var initialScale: real
    var isRotating: bool
    var isScaling: bool
    var yaw: real
    var scale: Vec3
    var modelVisible: bool
    var modelPosition: Vec3
    var shadowVisible: bool
    var shadowPosition: Vec3
    var hitTestCancelled: bool

    function State(): Interaction
      reads this
    {
      Interaction(placed, anchored, hitTestResult, touchStartX, touchStartY, touchStartDistance,
                  initialRotation, initialScale, isRotating, isScaling, yaw, scale,
                  modelVisible, modelPosition, shadowVisible, shadowPosition)
    }

    ghost predicate Valid()
      reads this
    {
      Inv(State())
    }

    constructor(container: Container, canvas: Node, modelScale: real, modelPosition: Vec3)
      ensures Valid()
      ensures State() == Initial(modelScale, modelPosition)
      ensures this.container == container && this.canvas == canvas && !hitTestCancelled
    {
      this.container := container;
      this.canvas := canvas;
      placed, anchored, hitTestResult := false, false, None;
      touchStartX, touchStartY, touchStartDistance := 0.0, 0.0, 0.0;
      initialRotation, initialScale := 0.0, 1.0;
      isRotating, isScaling := false, false;
      yaw, scale := 0.0, Uniform(modelScale);
      this.modelVisible, this.modelPosition := false, modelPosition;
      shadowVisible, shadowPosition := false, Vec3(0.0, -ShadowDrop, 0.0);
      hitTestCancelled := false;
    }

    /** The `touchstart` listener on the canvas. */
    method TouchStart(touchCount: nat, x: real, y: real, distance: real)
      requires Valid()
      requires touchCount == 2 ==> distance > 0.0
      modifies this
      ensures Valid()
      ensures State() == TouchStarted(old(State()), touchCount, x, y, distance)
      ensures hitTestCancelled == old(hitTestCancelled)
    {
      if touchCount == 1 {
        touchStartX := x;
        touchStartY := y;
        isRotating := true;
        initialRotation := yaw;
      } else if touchCount == 2 {
        isRotating := false;
        isScaling := true;
        touchStartDistance := distance;
        initialScale := scale.x;
      }
    }

    /** The `touchmove` listener on the canvas. */
    method TouchMove(touchCount: nat, x: real, distance: real)
      requires Valid()
      modifies this
      ensures Valid()
      ensures State() == TouchMoved(old(State()), touchCount, x, distance)
      ensures hitTestCancelled == old(hitTestCancelled)
    {
      if isRotating && placed {
        if touchCount >= 1 {
          var deltaX := x - touchStartX;
          yaw := initialRotation + deltaX * RotationPerPixel;
        }
      } else if isScaling && placed {
        if touchCount >= 2 {
          var clamped := PinchScale(initialScale, distance, touchStartDistance);
          scale := Vec3(clamped, clamped, clamped);
        }
      }
    }

    /** The `touchend` listener on the canvas. */
    method TouchEnd()
      requires Valid()
      modifies this
      ensures Valid()
      ensures State() == TouchEnded(old(State()))
      ensures hitTestCancelled == old(hitTestCancelled)
    {
      isRotating := false;
      isScaling := false;
    }

    /** The placement part of `onXRFrame`. */
    method OnXRFrame(hasPose: bool, hitCount: nat, firstHit: HitResult, anchorCreated: bool)
      requires Valid()
      modifies this
      ensures Valid()
      ensures State() == FrameRendered(old(State()), hasPose, hitCount, firstHit, anchorCreated)
      ensures hitTestCancelled == old(hitTestCancelled)
    {
      if hasPose {
        if !placed {
          if hitCount > 0 {
            hitTestResult := Some(firstHit);
            if !anchored && anchorCreated {
              anchored := true;
              if firstHit.pose.None? {
                // reading the null pose's transform raises; the frame ends here
                return;
              }
              var position := firstHit.pose.value;
              modelPosition := position;
              modelVisible := true;
              shadowPosition := Below(position);
              shadowVisible := true;
              placed := true;
            }
          }
        }
      }
    }

    /** The session's `end` listener: cancel the hit-test source, detach the canvas if still attached. */
    method OnSessionEnd()
      modifies this, container
      ensures hitTestCancelled
      ensures container.View() == old(container.View()).(children := RemoveNode(old(container.children), canvas))
      ensures State() == old(State())
    {
      hitTestCancelled := true;
      if canvas in container.children {
        container.RemoveChild(canvas);
      }
    }
  }

  /** The `catch` block of loadWebXRAr. */
  method HandOff(container: Container, fallbackContainer: Container, fault: Option<string>)
    returns (raised: Option<string>)
    requires container != fallbackContainer
    modifies container, fallbackContainer
    ensures var l := HandedOff(old(container.View()), old(fallbackContainer.View()), false, fault);
      container.View() == l.ar && fallbackContainer.View() == l.fallback && raised == l.raised
  {
    container.Hide();
    fallbackContainer.Show();
    raised := InPageViewer.LoadFallbackViewer(fallbackContainer, true, fault);
  }

  /**
   * loadWebXRAr. `canvasId` names the canvas this attempt creates; the
   * returned session is the running closure when setup completes, and
   * `abandoned` says a granted session was left running by the hand-off.
   */
  method LoadWebXRAr(container: Container, fallbackContainer: Container, canvasId: nat,
                     threeLoaded: bool, hasXrApi: bool, xr: XrSetup, fault: Option<string>)
    returns (session: ArSession?, abandoned: bool, raised: Option<string>)
    requires container != fallbackContainer
    modifies container, fallbackContainer
    ensures var l := Launched(old(container.View()), old(fallbackContainer.View()), canvasId, threeLoaded, hasXrApi, xr, fault);
      && container.View() == l.ar && fallbackContainer.View() == l.fallback && raised == l.raised
      && (session != null <==> l.started) && abandoned == l.abandoned
    ensures session != null ==>
      && fresh(session) && session.Valid() && !session.hitTestCancelled
      && session.container == container && session.canvas == XrCanvas(canvasId)
      && session.State() == Initial(LoadedScale(xr), LoadedPosition(xr))
  {
    session, abandoned := null, false;
    if !threeLoaded {
      return null, false, None;
    }
    if !hasXrApi || !xr.arSupported {
      raised := HandOff(container, fallbackContainer, fault);
      return;
    }
    var canvas := XrCanvas(canvasId);
    container.AppendChild(canvas);
    if !AssetLoaded(xr) || !xr.sessionGranted {
      raised := HandOff(container, fallbackContainer, fault);
      return;
    }
    if !xr.sessionConfigured {
      // the granted session is neither ended nor given an `end` listener
      abandoned := true;
      raised := HandOff(container, fallbackContainer, fault);
      return;
    }
    session := new ArSession(container, canvas, LoadedScale(xr), LoadedPosition(xr));
    raised := None;
  }
}
