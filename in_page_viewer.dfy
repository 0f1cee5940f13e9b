/**
 * What loadFallbackViewer (js/fallback-viewer.js) does to its container, the
 * only part of the in-page viewer the dispatch and exit logic can observe:
 * with the rendering library loaded it appends one canvas; the loader and
 * orbit-control calls after that may raise.
 */
module InPageViewer {
  import opened Wrappers
  import opened Dom

  /** The container after the viewer was started, and the error it raised, if any. */
  datatype Opened = Opened(panel: Panel, raised: Option<string>)

  /**
   * `threeLoaded` is `typeof THREE !== 'undefined'`; `fault` is the message of
   * the error a later library call raises, if one does.
   */
  function ViewerOpened(p: Panel, threeLoaded: bool, fault: Option<string>): Opened
  {
    if !threeLoaded then Opened(p, None)
    else Opened(p.(children := p.children + [ViewerCanvas]), fault)
  }

  method LoadFallbackViewer(container: Container, threeLoaded: bool, fault: Option<string>)
    returns (raised: Option<string>)
    modifies container
    ensures Opened(container.View(), raised) == ViewerOpened(old(container.View()), threeLoaded, fault)
  {
    if !threeLoaded {
      return None;
    }
    container.AppendChild(ViewerCanvas);
    raised := fault;
  }
}
