/**
 * The embedded web view of one greeter window (src/browser-web-view.c).
 * Only the state the control process reads or changes is kept.
 */
module WebViews {

  class WebView {
    /** Set by the first "ready-to-show" message; never cleared. */
    var loaded: bool
    /** The engine's zoom level, as a real number. */
    var zoomLevel: real
    /** Whether the web inspector currently has a view of its own (is shown). */
    var inspectorOpen: bool

    /** browser_web_view_init: a new view has not been shown yet. */
    constructor ()
      ensures !loaded
      ensures zoomLevel == 1.0 && !inspectorOpen
    {
      loaded := false;
      zoomLevel := 1.0;
      inspectorOpen := false;
    }
  }
}
