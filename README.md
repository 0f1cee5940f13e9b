# Food AR viewer: dispatch, view state and AR interaction

A Dafny model of the decision and state logic of a web page that shows one
food item in augmented reality. The page picks one of three presentation
modes from the user agent and the browser's capabilities:

- AR Quick Look on iPhone, iPad and iPod;
- an immersive WebXR session on Android when the WebXR API is present and
  `isSessionSupported('immersive-ar')` resolves true;
- an in-page 3D viewer everywhere else, and whenever an immersive setup step
  fails while the rendering library is loaded. Without the library the
  immersive attempt returns at once: no hand-off, and the AR container stays
  shown without a canvas.

Around that sits a small view state: two containers (`#ar-container`,
`#fallback-container`) with a `hidden` class and child nodes, the food card's
display, a loading indicator, the button's `disabled` flag, and error
messages. It changes on the button click, on exit (exit button or
`exitARView`) and on `popstate`. Inside a running immersive session a state
machine over the handler closure's variables places the model once, on the
first frame whose first hit result gets an anchor and has a pose. After that,
one finger rotates the model and two fingers scale it.

Modules:

- `Dispatch` (dispatch.dfy): ASCII lower-casing, the unanchored
  pattern test, `DetectDeviceCapabilities`, the click branch and
  `SelectMode`. All of it is pure.
- `Dom` (dom.dfy): the container class and its child list.
- `InPageViewer` (in_page_viewer.dfy): the only effect of the in-page viewer
  that the core can observe. With the rendering library loaded it appends
  one canvas and may then raise; without it, it does nothing.
- `Gestures` (gestures.dfy): the touch and frame handlers as functions
  on the closure's values, with their invariant and lemmas about event
  sequences.
- `WebXR` (webxr.dfy): `loadWebXRAr`'s checks and hand-off, and the
  `ArSession` class whose methods update the closure's variables in place.
- `MainPage` (mainpage.dfy): the page's state as a value, the handlers as
  functions on it, and the `Page` class whose methods update it in place.

Each method of the two classes ensures that its new state equals a function of
its old state (`State() == Clicked(old(State()), …)`). The properties are proved
as lemmas about those functions. Lemmas about sequences of events are proved by
induction.

Inputs that come from code this model cannot see are parameters:

- the user agent;
- whether `navigator.xr.isSessionSupported` exists;
- whether the rendering library is loaded;
- the outcome of each asynchronous setup step (`XrSetup`);
- an error raised by the in-page viewer;
- touch counts, coordinates and finger distances;
- whether a frame has a viewer pose, the hit-result count, and the first hit's pose (or that `getPose` returned null);
- whether creating the anchor succeeds.

Four behaviours of the code differ from what its comments and structure suggest; the model follows the code:

- The pinch scale is clamped to the absolute range [0.5, 1.5] of `model.scale`
  (js/webxr-ar.js:165-169), not to 50-150 % of the scale recorded when the pinch started, as the comment "Limit scale between 50% and 150%" could be read. A model whose
  size-normalised scale lies outside that range is pulled into it by any pinch
  move whose ratio does not bring it inside; a pinch whose fingers have not
  moved sets it to the nearer edge (`PinchClampIsAbsolute`).
- A setup failure after a positive probe leaves the attempt's canvas in the
  hidden AR container until the next exit (`LateSetupFailureKeepsCanvas`).
- A setup step that fails after `requestSession` resolved (js/webxr-ar.js:106-113)
  hands off to the in-page viewer without ending the granted session, and no
  `end` listener is ever registered for it (`Launched`, `AbandonedSessionsOnlyGrow`).
- The frame handler stores the anchor (js/webxr-ar.js:208) before it reads the
  hit's pose (js/webxr-ar.js:212). When `getPose` returns null that read
  raises, the anchor stays set with the model unplaced, and the `!modelAnchor`
  guard keeps every later frame from placing it (`FramePlacesOnce`,
  `AnchorWithoutPlacementIsStuck`, `NullHitPoseStrandsModel`).

The page markup is not part of this model. Both containers are assumed to start
hidden and empty, and the food card to start displayed.

## Model

| member | source | states |
|---|---|---|
| Dispatch.Lower | js/main.js:38 | lower-casing keeps the length and lowers each character in place (ASCII) |
| Dispatch.LowerIdempotent | js/main.js:38 | lower-casing an already lowered user agent changes nothing |
| Dispatch.Test | js/main.js:39-40 | the regular-expression test returns true exactly when the pattern occurs somewhere in the string (unanchored) |
| Dispatch.LowerKeepsOccurrence | js/main.js:38-40 | a token found in the raw user agent is found, lowered, at the same index in the lowered one |
| Dispatch.DetectDeviceCapabilities | js/main.js:37-55 | isIOS iff the lowered UA contains iphone, ipad or ipod; isAndroid iff it contains android; isWebXRSupported iff the XR API with isSessionSupported is present |
| Dispatch.SelectMode | js/main.js:74-88 | Quick Look iff the device names an Apple handheld, whatever the other flags; immersive iff not Apple, Android, API present and probe true; fallback in every other case; the three are exclusive |
| Dispatch.SelectModeIgnoresCase | js/main.js:38 | dispatch gives the same mode for a user agent and its lowered form |
| Dispatch.AppleTokenSelectsQuickLook | js/main.js:38-39 | a UA containing any token that lowers to iphone, ipad or ipod (such as "iPhone") selects Quick Look |
| Dispatch.AppleTokensLowerToPatterns | js/main.js:39 | "iPhone", "iPad" and "iPod" lower to the three patterns |
| Dispatch.AndroidTokenSelectsImmersive | js/main.js:40-41 | a non-Apple UA containing "Android" selects the immersive session exactly when the API is present and the probe passes |
| Dom.RemoveNode | js/webxr-ar.js:242-244 | removing a node leaves every other child with its multiplicity and no copy of the node; removing an absent node changes nothing |
| Dom.RemoveNodeOverConcat | js/webxr-ar.js:242-244 | removal works piecewise over a concatenation, so the remaining children keep their order |
| Dom.RemoveNodeAt | js/webxr-ar.js:242-244 | removing a child that occurs once, at index k, yields the children before k followed by those after it |
| Dom.Container.RemoveAllChildren | js/main.js:107-112 | the firstChild/removeChild loop empties the child list and leaves the hidden flag alone |
| Dom.AddExitButton | js/main.js:123-141 | the container gets exactly one more child, an exit button, at the end |
| InPageViewer.LoadFallbackViewer | js/fallback-viewer.js:4-13 | without the rendering library nothing changes; with it one canvas is appended before anything can raise |
| Gestures.ClampScale | js/webxr-ar.js:168 | the result lies in [0.5, 1.5], equals the input inside that range and the nearer bound outside it |
| Gestures.PinchScale | js/webxr-ar.js:161-169 | the pinch scale always lies in [0.5, 1.5] and equals initialScale * distance / startDistance when that lies inside |
| Gestures.PinchClampIsAbsolute | js/webxr-ar.js:165-168 | with a recorded scale below 0.5, a pinch whose distance equals the start distance sets 0.5, not the recorded scale |
| Gestures.InitialSatisfiesInv | js/webxr-ar.js:86-96 | the state after setup (model and shadow hidden, shadow 0.001 below the origin) satisfies the interaction invariant |
| Gestures.TouchStartGestures | js/webxr-ar.js:130-151 | one touch starts rotating, records start X and the current yaw, and keeps the scaling flag; two touches clear rotating, set scaling, and record the distance and scale.x; other counts change nothing |
| Gestures.TouchEndStopsGestures | js/webxr-ar.js:173-176 | touchend clears both gesture flags and changes nothing else |
| Gestures.TouchMoveGestures | js/webxr-ar.js:153-171 | nothing changes before placement; rotation wins over scaling; the yaw becomes initialRotation + 0.01 * (touchX - touchStartX); a pinch sets one value in [0.5, 1.5] on all three axes |
| Gestures.FramePlacesOnce | js/webxr-ar.js:199-224 | a frame places the model iff it has a viewer pose and a hit, the model is neither placed nor anchored, the anchor is created and the hit's pose is not null; placement shows the model at that pose and the shadow 0.001 below it; with a null hit pose the anchor is set and nothing is placed; an unplaced frame with a hit records it; a placed state is left unchanged |
| Gestures.Step | js/webxr-ar.js:130-224 | every handler and frame keeps the invariant: pinch start distance positive, visible iff placed, placed only when anchored, the placed model at its hit's pose with the shadow just below, uniform scale |
| Gestures.Run | js/webxr-ar.js:130-224 | any sequence of handlers and frames keeps the invariant |
| Gestures.PlacementIsFinal | js/webxr-ar.js:200-221 | once placed, no sequence of events moves or hides the model or the shadow, or reads another hit result |
| Gestures.HiddenUntilPlaced | js/webxr-ar.js:92-96 | without a frame that has a pose, a hit with a pose and an anchor, model and shadow stay hidden and the yaw and scale never change |
| Gestures.ScaleStaysClamped | js/webxr-ar.js:165-169 | after any sequence of events the scale is uniform and either the loaded scale or a value in [0.5, 1.5] |
| Gestures.AnchorWithoutPlacementIsStuck | js/webxr-ar.js:200-221 | once anchored but not placed, no sequence of events places, shows or moves the model or changes its yaw or scale |
| Gestures.NullHitPoseStrandsModel | js/webxr-ar.js:207-212 | from the state setup leaves, one frame whose hit has a null pose and whose anchor is created reaches that stuck state |
| WebXR.Launched | js/webxr-ar.js:2-113 | a session runs with its handlers iff the library is loaded, the API is present, the probe is true, something to show loaded, and the session was granted and configured; a granted session is abandoned iff a configuring step after requestSession fails, never both; any failure hides the AR container and shows the fallback container with the viewer's canvas; a missing API or a negative probe appends no canvas, a later step leaves the attempt's canvas appended; without the library nothing changes and nothing is handed off |
| WebXR.HandOff | js/webxr-ar.js:247-255 | the AR container becomes hidden and the fallback container visible with the viewer started |
| WebXR.LoadWebXRAr | js/webxr-ar.js:2-255 | containers, raised error, the abandoned-session flag and the session follow Launched; a started session is fresh, bound to the container and to its canvas, and starts hidden with the loaded scale and position |
| WebXR.ArSession.constructor | js/webxr-ar.js:115-127 | the closure variables start at their initial values |
| WebXR.ArSession.TouchStart | js/webxr-ar.js:130-151 | updates the closure in place by the touchstart transition (one finger: rotation from the current yaw; two: scaling from the current scale.x) and keeps the interaction invariant; the hit-test source is untouched |
| WebXR.ArSession.TouchMove | js/webxr-ar.js:153-171 | updates yaw or scale in place by the touchmove transition (nothing before placement, rotation first, clamped uniform pinch) and keeps the interaction invariant |
| WebXR.ArSession.TouchEnd | js/webxr-ar.js:173-176 | clears both gesture flags in place and keeps the interaction invariant |
| WebXR.ArSession.OnXRFrame | js/webxr-ar.js:186-229 | records the first hit and performs the one-shot placement in place (pose, hit, not yet placed or anchored, anchor created, hit pose present), ending the frame with only the anchor set when the hit pose is null, and keeps the interaction invariant |
| WebXR.ArSession.OnSessionEnd | js/webxr-ar.js:235-245 | the hit-test source is cancelled; the canvas is removed from the container if still there; nothing else changes |
| MainPage.ClickBeforeDataOnlyReports | js/main.js:59-62 | a click before the data loaded appends one error and changes nothing else (no mode, card, loading or button change) |
| MainPage.ClickAlwaysSettles | js/main.js:93-97 | after any click past the guard, succeeded or failed, the loading indicator is hidden and the button enabled |
| MainPage.ClickPresentsSelectedMode | js/main.js:64-88 | from an idle page, with the rendering library loaded and no error from the in-page viewer, and counting the probe as passed only when the rest of the setup completes: the AR container is visible iff the selected mode is immersive, the fallback container iff fallback, an overlay is added iff Quick Look; the card is hidden and no error is added |
| MainPage.QuickLookIsNotUndoneByHistory | js/main.js:72-77 | on the Apple branch no container is unhidden, so popstate changes nothing and the card stays hidden |
| MainPage.UnsupportedProbeHandsOff | js/webxr-ar.js:11-19 | with the API present but a negative probe, no XR canvas is appended, the AR container ends hidden and the fallback container visible with the viewer's canvas |
| MainPage.LateSetupFailureKeepsCanvas | js/webxr-ar.js:22-113 | a failure after a positive probe hands off to the fallback viewer but leaves the attempt's canvas in the hidden AR container, which the next exit clears; a failure after requestSession resolved adds one abandoned session, which the exit does not end |
| MainPage.ViewerFaultRestoresCard | js/main.js:89-92 | an error raised by the in-page viewer is reported and the exit restores the card with both containers hidden and empty |
| MainPage.ExitRestoresStartScreen | js/main.js:101-113 | exit leaves both containers hidden and empty (no exit button), the card displayed, and errors, loading and button untouched |
| MainPage.ExitIdempotent | js/main.js:101-113 | calling exit twice gives the same state as calling it once |
| MainPage.PopStateGuard | js/main.js:116-120 | popstate exits iff some container is visible and otherwise changes nothing |
| MainPage.SessionEndAfterExit | js/webxr-ar.js:242-244 | a session that ends after the page's exit finds its canvas gone and changes nothing |
| MainPage.SessionEndRemovesOnlyItsCanvas | js/webxr-ar.js:242-244 | a session that ends with its canvas attached removes exactly that child, keeping the AR container's visibility, the order of its other children and the rest of the page |
| MainPage.ClickAddsNoExitButton | js/main.js:58-98 | a click never puts an exit button into a container that has none |
| MainPage.HandleAddsNoExitButton | js/main.js:58-120 | no page event puts an exit button into a container that has none |
| MainPage.ExitButtonsNeverReturn | js/main.js:144-145 | once no container holds an exit button, no sequence of events brings one back |
| MainPage.ControlsIdleBetweenEvents | js/main.js:66-68 | between events the loading indicator stays hidden and the button enabled |
| MainPage.ErrorsOnlyGrow | js/main.js:29-34 | error messages are only appended, never removed |
| MainPage.AbandonedSessionsOnlyGrow | js/webxr-ar.js:247-255 | no page event ends an abandoned session: their count never decreases |
| MainPage.ExitFromStartIsFinal | js/main.js:107-112 | after the first exit from the start-up state no exit button ever appears again |
| MainPage.Page.constructor | js/main.js:1-10 | the page starts with both containers hidden, one exit button each, the card displayed, idle controls and no data |
| MainPage.Page.OnDataLoaded | js/main.js:19-22 | the descriptor is recorded |
| MainPage.Page.OnDataFailed | js/main.js:23-26 | the menu-data error message is appended |
| MainPage.Page.ExitARView | js/main.js:101-113 | hides both containers, displays the card and empties both child lists through the removal loops, leaving everything else as it was |
| MainPage.Page.OnPopState | js/main.js:116-120 | exits when some container is visible and otherwise leaves the page as it was |
| MainPage.Page.CancelQuickLook | js/ar-quick-look.js:68-70 | one overlay is removed and nothing else changes |
| MainPage.Page.Present | js/main.js:74-88 | the try block's branch updates the page as Presented describes and returns the error that escaped it; a returned session is fresh and bound to the AR container and this attempt's canvas |
| MainPage.Page.OnViewClicked | js/main.js:58-98 | guard, busy indicators, card hidden, exactly one branch, catch with error and exit, finally reset, as Clicked describes; a returned session is fresh, bound to the AR container and this attempt's canvas |
| MainPage.Page.ShowError | js/main.js:29-34 | one message is appended to the card's errors and nothing else changes |
| MainPage.Page.LoadARQuickLook | js/ar-quick-look.js:2-76 | one overlay is appended to the body and nothing else changes |

## Left out

- Rendering: the Three.js scene, camera, lights, renderer, shadow flags, resize handlers and render calls are library calls with no decisions in them.
- Model size normalisation and centring (`0.3048 / size`, the bounding-box centre) are floating-point library results. They enter as the inputs `normalisedScale` and `centringOffset`.
- The in-page viewer is reduced to the canvas it appends and the error it may raise. Its loaders and orbit controls are rendering.
- The Quick Look overlay's DOM (title, link, image, instructions) is styling. It is a count of overlays in the body, and Cancel removes one.
- The fetch of `data.json` and JSON parsing are out. The handlers receive the loaded descriptor, or learn that loading failed. A falsy but successfully parsed document is not distinguished from a missing one.
- `Math.hypot` is out: finger distances are real inputs.
- JavaScript floating point is modelled by reals. NaN and infinities are not modelled.
- WebXR.ArSession.TouchStart: requires a positive distance for a two-finger start. With two coincident touches the start distance is 0: a later move with a positive distance gives Infinity at js/webxr-ar.js:165, which js/webxr-ar.js:168 clamps to 1.5, and a move with distance 0 gives NaN, which passes through `Math.min` and `Math.max` into the scale.
- Gestures.TouchMoved: requires a positive start distance while scaling, which holds in every reachable state because of the touchstart requirement above.
- `toLowerCase` beyond ASCII (Unicode case mapping) is out.
- Asynchronous scheduling is out. Each handler, each frame and each `await`ed setup step is one atomic step in source order. Frame re-scheduling (`requestAnimationFrame`) and the camera update from the pose are out.
- The `if (model)` checks in the touch and frame handlers are always true once setup finished. They are not modelled as branches.
- `touchStartY` is recorded but never read by the source. It is kept as state only.
- Exit does not end the XR session in the source, and the model does not either. Session end is a separate event: `OnSessionEnd` on the session and `SessionEnded` on the page.
- Ending an abandoned session (by the browser or the user) is not observed by the page, which registered no listener for it; the model counts such sessions and never decrements the count.
- The error a throwing frame callback reports (the null hit pose) is out; the frame simply ends, and the next one is still scheduled because js/webxr-ar.js:187 requests it first.
- The initial classes of the two containers and the card's initial display come from the page markup, which is not part of this model. They are assumed hidden, hidden and displayed.
