/**
 * The page controller of js/main.js: the "View in AR" click handler with its
 * guard, dispatch and `finally` reset; exitARView; the `popstate` guard; the
 * exit buttons added at start-up; and the Quick Look overlay's Cancel.
 */
module MainPage {
  import opened Wrappers
  import opened Dom
  import opened Dispatch
  import WebXR
  import InPageViewer
  import Gestures

  /** The food descriptor fetched from `data.json`. */
  datatype FoodData = FoodData(name: string, model: string, fallback: string)

  const MenuLoadError: string := "Error loading menu data. Please refresh the page."
  const NotLoadedError: string := "Menu data not loaded yet. Please wait and try again."
  const DefaultFailure: string := "Failed to load AR experience"

  /** `Error: ${error.message || 'Failed to load AR experience'}` */
  function FailureMessage(message: string): string
  {
    "Error: " + (if message == "" then DefaultFailure else message)
  }

  /**
   * What the click handler reads from the browser: the user agent, whether
   * `navigator.xr.isSessionSupported` exists, and whether the rendering
   * library is loaded.
   */
  datatype Env = Env(userAgent: string, hasXrApi: bool, threeLoaded: bool)

  /**
   * The observable page: the loaded descriptor, both containers, the food
   * card's display, the loading indicator, the button's `disabled`, the
   * error messages appended to the card, the number of Quick Look overlays in
   * the body, the number of immersive attempts (which names each attempt's
   * canvas), and the number of granted immersive sessions a failed setup
   * abandoned: neither ended nor listened to by the page.
   */
  datatype PageState = PageState(
    food: Option<FoodData>,
    ar: Panel,
    fallback: Panel,
    cardDisplayed: bool,
    loadingShown: bool,
    buttonDisabled: bool,
    errors: seq<string>,
    quickLookOverlays: nat,
    xrAttempts: nat,
    abandonedSessions: nat)

  /** After `DOMContentLoaded`: both containers hidden, each holding its exit button. */
  function Start(): PageState
  {
    PageState(None, Panel(true, [ExitButton]), Panel(true, [ExitButton]), true, false, false, [], 0, 0, 0)
  }

  function ErrorShown(s: PageState, message: string): PageState
  {
    s.(errors := s.errors + [message])
  }

  /** exitARView */
  function Exited(s: PageState): PageState
  {
    s.(ar := Panel(true, []), fallback := Panel(true, []), cardDisplayed := true)
  }

  /** The `popstate` listener. */
  function HistoryPopped(s: PageState): PageState
  {
    if !s.ar.hidden || !s.fallback.hidden then Exited(s) else s
  }

  /** The state after the `try` block's branch, and the error that escaped it. */
  datatype Attempt = Attempt(state: PageState, raised: Option<string>)

  function Presented(s: PageState, env: Env, xr: WebXR.XrSetup, fault: Option<string>): Attempt
  {
    match Branch(DetectDeviceCapabilities(env.userAgent, env.hasXrApi))
    case QuickLook =>
      Attempt(s.(quickLookOverlays := s.quickLookOverlays + 1), None)
    case ImmersiveAR =>
      var l := WebXR.Launched(s.ar.(hidden := false), s.fallback, s.xrAttempts, env.threeLoaded, env.hasXrApi, xr, fault);
      Attempt(s.(ar := l.ar, fallback := l.fallback, xrAttempts := s.xrAttempts + 1,
                 abandonedSessions := s.abandonedSessions + (if l.abandoned then 1 else 0)),
              l.raised)
    case FallbackViewer =>
      var v := InPageViewer.ViewerOpened(s.fallback.(hidden := false), env.threeLoaded, fault);
      Attempt(s.(fallback := v.panel), v.raised)
  }

  /**
   * The click handler: the data guard, the busy indicators, the card hidden,
   * the branch, the `catch` (error shown, exit), and the `finally` reset.
   * `fault` is the error the in-page viewer raises if it is started.
   */
  function Clicked(s: PageState, env: Env, xr: WebXR.XrSetup, fault: Option<string>): PageState
  {
    if s.food.None? then
      ErrorShown(s, NotLoadedError)
    else
      var busy := s.(loadingShown := true, buttonDisabled := true, cardDisplayed := false);
      var attempt := Presented(busy, env, xr, fault);
      var settled :=
        if attempt.raised.Some? then Exited(ErrorShown(attempt.state, FailureMessage(attempt.raised.value)))
        else attempt.state;
      settled.(loadingShown := false, buttonDisabled := false)
  }

  /** The Quick Look overlay's Cancel removes that overlay and nothing else. */
  function QuickLookCancelled(s: PageState): PageState
  {
    if s.quickLookOverlays > 0 then s.(quickLookOverlays := s.quickLookOverlays - 1) else s
  }

  /** The session's `end` listener as the page sees it: that attempt's canvas leaves the AR container if still there. */
  function SessionDetached(s: PageState, id: nat): PageState
  {
    s.(ar := s.ar.(children := RemoveNode(s.ar.children, XrCanvas(id))))
  }

  /** Neither presentation container is visible. */
  predicate Idle(s: PageState)
  {
    s.ar.hidden && s.fallback.hidden
  }

  // ---------------------------------------------------------------------------
  // Properties of single events
  // ---------------------------------------------------------------------------

  /** A click before the data arrived adds one error and changes nothing else. */
  lemma ClickBeforeDataOnlyReports(s: PageState, env: Env, xr: WebXR.XrSetup, fault: Option<string>)
    requires s.food.None?
    ensures Clicked(s, env, xr, fault) == s.(errors := s.errors + [NotLoadedError])
  {
  }

  /** After any click past the guard, succeeded or failed, the indicator is hidden and the button enabled. */
  lemma ClickAlwaysSettles(s: PageState, env: Env, xr: WebXR.XrSetup, fault: Option<string>)
    requires s.food.Some?
    ensures !Clicked(s, env, xr, fault).loadingShown && !Clicked(s, env, xr, fault).buttonDisabled
  {
  }

  /**
   * From an idle page, with the rendering library loaded and no viewer error,
   * a click presents exactly the mode SelectMode chooses, where the probe
   * counts as passed only when the rest of the setup completes too: the AR
   * container is visible exactly for the immersive mode, the fallback
   * container exactly for the fallback mode, one overlay is added exactly for
   * Quick Look, and the card stays hidden.
   */
  lemma ClickPresentsSelectedMode(s: PageState, env: Env, xr: WebXR.XrSetup)
    requires s.food.Some? && Idle(s) && env.threeLoaded
    ensures var m := SelectMode(env.userAgent, env.hasXrApi, xr.arSupported && WebXR.SetupCompletes(xr));
      var t := Clicked(s, env, xr, None);
      && (!t.ar.hidden <==> m == ImmersiveAR)
      && (!t.fallback.hidden <==> m == FallbackViewer)
      && (t.quickLookOverlays == s.quickLookOverlays + 1 <==> m == QuickLook)
      && (m != QuickLook ==> t.quickLookOverlays == s.quickLookOverlays)
      && !t.cardDisplayed && t.errors == s.errors
  {
  }

  /**
   * Quick Look unhides no container, so a later `popstate` does nothing and
   * the card stays hidden.
   */
  lemma QuickLookIsNotUndoneByHistory(s: PageState, env: Env, xr: WebXR.XrSetup, fault: Option<string>)
    requires s.food.Some? && Idle(s)
    requires NamesAppleHandheld(env.userAgent)
    ensures var t := Clicked(s, env, xr, fault);
      HistoryPopped(t) == t && !t.cardDisplayed && Idle(t)
  {
  }

  /**
   * On Android with the API present but a negative probe, no XR canvas is
   * appended: the AR container ends hidden with its children as before, and
   * the fallback container is shown with the viewer's canvas.
   */
  lemma UnsupportedProbeHandsOff(s: PageState, env: Env, xr: WebXR.XrSetup)
    requires s.food.Some? && env.threeLoaded && env.hasXrApi && !xr.arSupported
    requires !NamesAppleHandheld(env.userAgent) && NamesAndroid(env.userAgent)
    ensures var t := Clicked(s, env, xr, None);
      && t.ar == s.ar.(hidden := true)
      && t.fallback == Panel(false, s.fallback.children + [ViewerCanvas])
  {
  }

  /**
   * A setup step that fails after a positive probe (asset or session) also
   * hands off to the fallback viewer, but the attempt's canvas stays in the
   * now hidden AR container until the next exit; when the failing step came
   * after `requestSession` resolved, the granted session is abandoned, and no
   * exit ends it.
   */
  lemma LateSetupFailureKeepsCanvas(s: PageState, env: Env, xr: WebXR.XrSetup)
    requires s.food.Some? && env.threeLoaded && env.hasXrApi && xr.arSupported && !WebXR.SetupCompletes(xr)
    requires !NamesAppleHandheld(env.userAgent) && NamesAndroid(env.userAgent)
    ensures var t := Clicked(s, env, xr, None);
      && t.ar == Panel(true, s.ar.children + [XrCanvas(s.xrAttempts)])
      && t.fallback == Panel(false, s.fallback.children + [ViewerCanvas])
      && t.abandonedSessions == s.abandonedSessions + (if WebXR.SessionLeftRunning(xr) then 1 else 0)
      && HistoryPopped(t).ar == Panel(true, [])
      && HistoryPopped(t).abandonedSessions == t.abandonedSessions
  {
  }

  /** An error from the in-page viewer is reported and the start screen restored. */
  lemma ViewerFaultRestoresCard(s: PageState, env: Env, xr: WebXR.XrSetup, message: string)
    requires s.food.Some? && env.threeLoaded
    requires SelectMode(env.userAgent, env.hasXrApi, xr.arSupported && WebXR.SetupCompletes(xr)) == FallbackViewer
    ensures var t := Clicked(s, env, xr, Some(message));
      && t.errors == s.errors + [FailureMessage(message)]
      && Idle(t) && t.ar.children == [] && t.fallback.children == [] && t.cardDisplayed
  {
  }

  /** exitARView hides and empties both containers and shows the card. */
  lemma ExitRestoresStartScreen(s: PageState)
    ensures var t := Exited(s);
      && Idle(t) && t.cardDisplayed
      && t.ar.children == [] && t.fallback.children == []
      && ExitButton !in t.ar.children && ExitButton !in t.fallback.children
      && t.errors == s.errors && t.loadingShown == s.loadingShown && t.buttonDisabled == s.buttonDisabled
      && t.quickLookOverlays == s.quickLookOverlays
  {
  }

  /** Exiting twice is exiting once. */
  lemma ExitIdempotent(s: PageState)
    ensures Exited(Exited(s)) == Exited(s)
  {
  }

  /** `popstate` exits exactly when some container is visible, and otherwise changes nothing. */
  lemma PopStateGuard(s: PageState)
    ensures !Idle(s) ==> HistoryPopped(s) == Exited(s)
    ensures Idle(s) ==> HistoryPopped(s) == s
  {
  }

  /**
   * A session that ends after the page's exit finds its canvas already
   * removed and changes nothing; one that ends while the canvas is attached
   * closes the gap at the canvas's index, keeping visibility and the order of
   * the other children.
   */
  lemma SessionEndAfterExit(s: PageState, id: nat)
    ensures SessionDetached(Exited(s), id) == Exited(s)
  {
  }

  lemma SessionEndRemovesOnlyItsCanvas(s: PageState, id: nat, k: nat)
    requires k < |s.ar.children| && s.ar.children[k] == XrCanvas(id)
    requires XrCanvas(id) !in s.ar.children[..k] && XrCanvas(id) !in s.ar.children[k+1..]
    ensures var t := SessionDetached(s, id);
      && t.ar == Panel(s.ar.hidden, s.ar.children[..k] + s.ar.children[k+1..])
      && t == s.(ar := t.ar)
  {
    RemoveNodeAt(s.ar.children, XrCanvas(id), k);
  }

  // ---------------------------------------------------------------------------
  // Runs of events
  // ---------------------------------------------------------------------------

  datatype PageEvent =
    | DataLoaded(data: FoodData)
    | DataFailed
    | ViewClicked(env: Env, xr: WebXR.XrSetup, fault: Option<string>)
    | ExitClicked
    | PopState
    | QuickLookCancel
    | SessionEnded(attempt: nat)

  function Handle(s: PageState, e: PageEvent): PageState
  {
    match e
    case DataLoaded(d) => s.(food := Some(d))
    case DataFailed => ErrorShown(s, MenuLoadError)
    case ViewClicked(env, xr, fault) => Clicked(s, env, xr, fault)
    case ExitClicked => Exited(s)
    case PopState => HistoryPopped(s)
    case QuickLookCancel => QuickLookCancelled(s)
    case SessionEnded(id) => SessionDetached(s, id)
  }

  function RunPage(s: PageState, es: seq<PageEvent>): PageState
    decreases |es|
  {
    if es == [] then s else RunPage(Handle(s, es[0]), es[1..])
  }

  /** A click appends at most a canvas to either container, or empties both. */
  lemma ClickAddsNoExitButton(s: PageState, env: Env, xr: WebXR.XrSetup, fault: Option<string>)
    requires ExitButton !in s.ar.children && ExitButton !in s.fallback.children
    ensures var t := Clicked(s, env, xr, fault);
      ExitButton !in t.ar.children && ExitButton !in t.fallback.children
  {
    var busy := s.(loadingShown := true, buttonDisabled := true, cardDisplayed := false);
    var a := Presented(busy, env, xr, fault).state;
    assert ExitButton !in a.ar.children && ExitButton !in a.fallback.children;
  }

  /** No single event adds an exit button to a container that has none. */
  lemma HandleAddsNoExitButton(s: PageState, e: PageEvent)
    requires ExitButton !in s.ar.children && ExitButton !in s.fallback.children
    ensures ExitButton !in Handle(s, e).ar.children && ExitButton !in Handle(s, e).fallback.children
  {
    match e
    case ViewClicked(env, xr, fault) => ClickAddsNoExitButton(s, env, xr, fault);
    case _ =>
  }

  /** The exit buttons are added once: after an exit removed them, no event brings them back. */
  lemma {:induction false} ExitButtonsNeverReturn(s: PageState, es: seq<PageEvent>)
    requires ExitButton !in s.ar.children && ExitButton !in s.fallback.children
    ensures ExitButton !in RunPage(s, es).ar.children && ExitButton !in RunPage(s, es).fallback.children
    decreases |es|
  {
    if es != [] {
      HandleAddsNoExitButton(s, es[0]);
      ExitButtonsNeverReturn(Handle(s, es[0]), es[1..]);
    }
  }

  /** Between events the loading indicator is hidden and the button enabled. */
  lemma {:induction false} ControlsIdleBetweenEvents(s: PageState, es: seq<PageEvent>)
    requires !s.loadingShown && !s.buttonDisabled
    ensures !RunPage(s, es).loadingShown && !RunPage(s, es).buttonDisabled
    decreases |es|
  {
    if es != [] {
      ControlsIdleBetweenEvents(Handle(s, es[0]), es[1..]);
    }
  }

  /** Error messages are only ever appended. */
  lemma {:induction false} ErrorsOnlyGrow(s: PageState, es: seq<PageEvent>)
    ensures s.errors <= RunPage(s, es).errors
    decreases |es|
  {
    if es != [] {
      ErrorsOnlyGrow(Handle(s, es[0]), es[1..]);
    }
  }

  /** An abandoned session is never ended by the page: the count only grows. */
  lemma {:induction false} AbandonedSessionsOnlyGrow(s: PageState, es: seq<PageEvent>)
    ensures s.abandonedSessions <= RunPage(s, es).abandonedSessions
    decreases |es|
  {
    if es != [] {
      AbandonedSessionsOnlyGrow(Handle(s, es[0]), es[1..]);
    }
  }

  /** From the start-up state the first exit leaves no exit button anywhere, for good. */
  lemma {:induction false} ExitFromStartIsFinal(pre: seq<PageEvent>, post: seq<PageEvent>)
    ensures var t := RunPage(Exited(RunPage(Start(), pre)), post);
      ExitButton !in t.ar.children && ExitButton !in t.fallback.children
  {
    ExitButtonsNeverReturn(Exited(RunPage(Start(), pre)), post);
  }

  // ---------------------------------------------------------------------------
  // The page, updated in place
  // ---------------------------------------------------------------------------

  class Page {
    const ar: Container
    const fallback: Container
    var food: Option<FoodData>
    var cardDisplayed: bool
    var loadingShown: bool
    var buttonDisabled: bool
    var errors: seq<string>
    var quickLookOverlays: nat
    var xrAttempts: nat
    var abandonedSessions: nat

    ghost predicate Valid()
      reads this
    {
      ar != fallback
    }

    function State(): PageState
      reads this, ar, fallback
    {
      PageState(food, ar.View(), fallback.View(), cardDisplayed, loadingShown, buttonDisabled,
                errors, quickLookOverlays, xrAttempts, abandonedSessions)
    }

    /** The `DOMContentLoaded` listener, up to the two addExitButton calls. */
    constructor()
      ensures Valid() && fresh(ar) && fresh(fallback)
      ensures State() == Start()
    {
      ar := new Container(true);
      fallback := new Container(true);
      food := None;
      cardDisplayed := true;
      loadingShown := false;
      buttonDisabled := false;
      errors := [];
      quickLookOverlays := 0;
      xrAttempts := 0;
      abandonedSessions := 0;
      new;
      AddExitButton(ar);
      AddExitButton(fallback);
    }

    /** The fetch's success continuation: `foodData = data`. */
    method OnDataLoaded(data: FoodData)
      requires Valid()
      modifies this
      ensures Valid()
      ensures State() == Handle(old(State()), DataLoaded(data))
    {
      food := Some(data);
    }

    /** The fetch's `catch`. */
    method OnDataFailed()
      requires Valid()
      modifies this
      ensures Valid()
      ensures State() == Handle(old(State()), DataFailed)
    {
      ShowError(MenuLoadError);
    }

    /** showError: one message appended to the card. */
    method ShowError(message: string)
      requires Valid()
      modifies this
      ensures Valid()
      ensures State() == ErrorShown(old(State()), message)
    {
      errors := errors + [message];
    }

    /** exitARView, also the exit buttons' click listener. */
    method ExitARView()
      requires Valid()
      modifies this, ar, fallback
      ensures Valid()
      ensures State() == Exited(old(State()))
    {
      ar.Hide();
      fallback.Hide();
      cardDisplayed := true;
      ar.RemoveAllChildren();
      fallback.RemoveAllChildren();
    }

    /** The `popstate` listener. */
    method OnPopState()
      requires Valid()
      modifies this, ar, fallback
      ensures Valid()
      ensures State() == HistoryPopped(old(State()))
    {
      if !ar.hidden || !fallback.hidden {
        ExitARView();
      }
    }

    /** loadARQuickLook: one overlay appended to the body. */
    method LoadARQuickLook()
      requires Valid()
      modifies this
      ensures Valid()
      ensures State() == old(State()).(quickLookOverlays := old(quickLookOverlays) + 1)
    {
      quickLookOverlays := quickLookOverlays + 1;
    }

    /** The overlay's Cancel button, which exists only while an overlay does. */
    method CancelQuickLook()
      requires Valid() && quickLookOverlays > 0
      modifies this
      ensures Valid()
      ensures State() == QuickLookCancelled(old(State()))
    {
      quickLookOverlays := quickLookOverlays - 1;
    }

    /**
     * The `try` block's branch: Quick Look, the immersive session (the AR
     * container shown first) or the in-page viewer, as the capabilities pick.
     */
    method Present(env: Env, xr: WebXR.XrSetup, fault: Option<string>)
      returns (session: WebXR.ArSession?, raised: Option<string>)
      requires Valid()
      modifies this, ar, fallback
      ensures Valid()
      ensures var a := Presented(old(State()), env, xr, fault);
        State() == a.state && raised == a.raised
      ensures session != null ==>
        && fresh(session) && session.Valid() && session.container == ar
        && session.canvas == XrCanvas(old(xrAttempts))
        && session.State() == Gestures.Initial(WebXR.LoadedScale(xr), WebXR.LoadedPosition(xr))
    {
      session, raised := null, None;
      match Branch(DetectDeviceCapabilities(env.userAgent, env.hasXrApi)) {
        case QuickLook =>
          LoadARQuickLook();
        case ImmersiveAR =>
          ar.Show();
          var abandoned;
          session, abandoned, raised := WebXR.LoadWebXRAr(ar, fallback, xrAttempts, env.threeLoaded, env.hasXrApi, xr, fault);
          xrAttempts := xrAttempts + 1;
          abandonedSessions := abandonedSessions + (if abandoned then 1 else 0);
        case FallbackViewer =>
          fallback.Show();
          raised := InPageViewer.LoadFallbackViewer(fallback, env.threeLoaded, fault);
      }
    }

    /**
     * The "View in AR" click listener. When the immersive session starts it is
     * returned, bound to the AR container and to this attempt's canvas.
     */
    method OnViewClicked(env: Env, xr: WebXR.XrSetup, fault: Option<string>) returns (session: WebXR.ArSession?)
      requires Valid()
      modifies this, ar, fallback
      ensures Valid()
      ensures State() == Clicked(old(State()), env, xr, fault)
      ensures session != null ==>
        && fresh(session) && session.Valid() && session.container == ar
        && session.canvas == XrCanvas(old(xrAttempts))
        && session.State() == Gestures.Initial(WebXR.LoadedScale(xr), WebXR.LoadedPosition(xr))
    {
      session := null;
      if food.None? {
        ShowError(NotLoadedError);
        return;
      }
      loadingShown := true;
      buttonDisabled := true;
      cardDisplayed := false;
      var raised;
      session, raised := Present(env, xr, fault);
      if raised.Some? {
        ShowError(FailureMessage(raised.value));
        ExitARView();
      }
      loadingShown := false;
      buttonDisabled := false;
    }
  }
}
