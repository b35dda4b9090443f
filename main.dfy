/**
 * Start-up of the control process (src/main.c): the keyboard accelerator table
 * and the creation of one greeter window per monitor.
 */
module Main {
  import opened Options
  import opened Geometry
  import opened WebViews
  import opened Browsers
  import opened Registry
  import opened WebViewMessages

  /** The monitor whose window is the primary (valid) one. */
  const PRIMARY_MONITOR: nat := 0

  /** One row of the accelerator table; a None action is the terminating sentinel. */
  datatype Accelerator = Accelerator(action: Option<string>, accels: seq<string>)

  /** The accelerator table of set_keybindings, sentinel included. */
  const Accelerators: seq<Accelerator> := [
    Accelerator(Some("app.quit"), ["<Control>Q"]),
    Accelerator(Some("win.toggle-inspector"), ["<Shift><Primary>I", "F12"]),
    Accelerator(Some("win.undo"), ["<Primary>Z"]),
    Accelerator(Some("win.redo"), ["<Shift><Primary>Z"]),
    Accelerator(Some("win.copy"), ["<Primary>C"]),
    Accelerator(Some("win.cut"), ["<Primary>X"]),
    Accelerator(Some("win.paste"), ["<Primary>V"]),
    Accelerator(Some("win.paste-plain"), ["<Shift><Primary>V"]),
    Accelerator(Some("win.select-all"), ["<Primary>A"]),
    Accelerator(Some("win.zoom-normal"), ["<Primary>0", "<Primary>KP_0"]),
    Accelerator(Some("win.zoom-in"), ["<Primary>plus", "<Primary>KP_Add", "<Primary>equal", "ZoomIn"]),
    Accelerator(Some("win.zoom-out"), ["<Primary>minus", "<Primary>KP_Subtract", "ZoomOut"]),
    Accelerator(Some("win.fullscreen"), ["F11"]),
    Accelerator(Some("win.reload"), ["<Primary>R", "F5", "Refresh", "Reload"]),
    Accelerator(Some("win.force-reload"), ["<Shift><Primary>R", "<Shift>F5"]),
    Accelerator(Some("win.close"), ["<Primary>W"]),
    Accelerator(Some("win.minimize"), ["<Primary>M"]),
    Accelerator(None, [])
  ]

  /** The table's sentinel is its last row and every row before it names an action. */
  lemma AcceleratorsTerminated()
    ensures |Accelerators| == 18 && Accelerators[17].action.None?
    ensures forall i :: 0 <= i < 17 ==> Accelerators[i].action.Some?
  {
  }

  /**
   * set_keybindings: register rows in table order and stop at the first row whose
   * action is None. Returns the (action, accelerators) pairs registered, in order.
   */
  method SetKeybindings(table: seq<Accelerator>) returns (registered: seq<(string, seq<string>)>)
    ensures |registered| <= |table|
    ensures forall i :: 0 <= i < |registered| ==>
      table[i].action.Some? && registered[i] == (table[i].action.value, table[i].accels)
    ensures |registered| == |table| || table[|registered|].action.None?
  {
    registered := [];
    var i := 0;
    while i < |table|
      invariant 0 <= i <= |table| && |registered| == i
      invariant forall j :: 0 <= j < i ==>
        table[j].action.Some? && registered[j] == (table[j].action.value, table[j].accels)
    {
      if table[i].action.None? {
        break;
      }
      registered := registered + [(table[i].action.value, table[i].accels)];
      i := i + 1;
    }
  }

  /** Where each new window sits: at the origin, with its monitor's size. */
  function WindowRects(monitors: seq<Monitor>): (rects: seq<Rect>)
    ensures |rects| == |monitors|
    ensures forall i :: 0 <= i < |monitors| ==>
      rects[i] == Rect(0, 0, monitors[i].geometry.width, monitors[i].geometry.height)
  {
    if monitors == [] then []
    else
      var last := monitors[|monitors| - 1];
      WindowRects(monitors[..|monitors| - 1]) + [Rect(0, 0, last.geometry.width, last.geometry.height)]
  }

  /** Every window is placed at (0, 0), so with at least one monitor the overall boundary starts at the origin. */
  lemma ActivationOrigin(monitors: seq<Monitor>)
    requires monitors != []
    ensures BoundaryOf(WindowRects(monitors)).minX == 0
    ensures BoundaryOf(WindowRects(monitors)).minY == 0
  {
    var rects := WindowRects(monitors);
    BoundaryCovers(rects);
    BoundaryAttained(rects);
    assert rects[0].x == 0 && rects[0].y == 0;
  }

  /** The overall boundary reaches the right and bottom edge of every monitor's window. */
  lemma ActivationCovers(monitors: seq<Monitor>)
    ensures forall i :: 0 <= i < |monitors| ==>
      monitors[i].geometry.width <= BoundaryOf(WindowRects(monitors)).maxX &&
      monitors[i].geometry.height <= BoundaryOf(WindowRects(monitors)).maxY
  {
    var rects := WindowRects(monitors);
    BoundaryCovers(rects);
    forall j | 0 <= j < |monitors|
      ensures monitors[j].geometry.width <= BoundaryOf(rects).maxX
      ensures monitors[j].geometry.height <= BoundaryOf(rects).maxY
    {
      assert rects[j].Right() == monitors[j].geometry.width;
      assert rects[j].Bottom() == monitors[j].geometry.height;
    }
  }

  /**
   * A window as the creation loop leaves it: built for `monitor`, valid only when
   * primary, with the greeter's debug mode, its id, a page not yet loaded and the
   * metadata browser_initiate_metadata publishes.
   */
  ghost predicate NewWindow(b: Browser, monitor: Monitor, primary: bool, debugMode: bool, strHash: string -> bv32)
    reads b, b.webView
  {
    && b.monitor == monitor && b.isValid == primary && b.debugMode == debugMode
    && !b.webView.loaded
    && b.id == GenId(monitor.manufacturer, monitor.model, strHash)
    && b.meta == Meta(b.id, primary, Rect(0, 0, monitor.geometry.width, monitor.geometry.height), OverallBoundary(0, 0, 0, 0))
  }

  /** Adding a window to the array adds one `load_theme` call for it to the fan-out. */
  lemma LoadThemeAppend(browsers: seq<Browser>, browser: Browser)
    ensures BroadcastCalls(LoadThemeEverywhere, browsers + [browser])
         == BroadcastCalls(LoadThemeEverywhere, browsers) + [LoadTheme(browser)]
  {
    assert (browsers + [browser])[..|browsers|] == browsers;
  }

  /** browser_new_full for one monitor, as the creation loop calls it. */
  method NewBrowser(monitor: Monitor, primary: bool, debugMode: bool, strHash: string -> bv32) returns (b: Browser)
    ensures fresh(b) && NewWindow(b, monitor, primary, debugMode, strHash)
  {
    b := new Browser.Full(monitor, debugMode, primary, strHash);
  }

  /**
   * The loop of app_activate_cb: for each monitor in order, a new window (valid
   * only at PRIMARY_MONITOR) is appended to `browsers` and its theme is loaded,
   * which appends a `load_theme` call to `calls`.
   */
  method AddWindows(monitors: seq<Monitor>, debugMode: bool, strHash: string -> bv32, calls0: seq<Call>)
    returns (browsers: seq<Browser>, calls: seq<Call>)
    ensures |browsers| == |monitors|
    ensures forall i, j :: 0 <= i < j < |browsers| ==> browsers[i] != browsers[j]
    ensures forall i :: 0 <= i < |browsers| ==>
      fresh(browsers[i]) && NewWindow(browsers[i], monitors[i], i == PRIMARY_MONITOR, debugMode, strHash)
    ensures calls == calls0 + BroadcastCalls(LoadThemeEverywhere, browsers)
  {
    browsers, calls := [], calls0;
    for i := 0 to |monitors|
      invariant |browsers| == i
      invariant forall j, k :: 0 <= j < k < i ==> browsers[j] != browsers[k]
      invariant forall j :: 0 <= j < i ==> fresh(browsers[j])
      invariant forall j :: 0 <= j < i ==> NewWindow(browsers[j], monitors[j], j == PRIMARY_MONITOR, debugMode, strHash)
      invariant calls == calls0 + BroadcastCalls(LoadThemeEverywhere, browsers)
    {
      var browser := NewBrowser(monitors[i], i == PRIMARY_MONITOR, debugMode, strHash);
      LoadThemeAppend(browsers, browser);
      browsers := browsers + [browser];
      calls := calls + [LoadTheme(browser)];
    }
  }

  /**
   * The window-creation part of app_activate_cb: a fresh greeter_browsers holding
   * one new window per monitor in monitor order, only the first marked valid, each
   * loading the theme as it is added.
   */
  method CreateWindows(g: Greeter, monitors: seq<Monitor>, strHash: string -> bv32)
    modifies g`browsers, g`calls
    ensures |g.browsers| == |monitors|
    ensures forall i, j :: 0 <= i < j < |g.browsers| ==> g.browsers[i] != g.browsers[j]
    ensures forall i :: 0 <= i < |g.browsers| ==>
      fresh(g.browsers[i]) && NewWindow(g.browsers[i], monitors[i], i == PRIMARY_MONITOR, g.config.debugMode, strHash)
    ensures g.calls == old(g.calls) + BroadcastCalls(LoadThemeEverywhere, g.browsers)
  {
    var browsers, calls := AddWindows(monitors, g.config.debugMode, strHash, g.calls);
    g.browsers, g.calls := browsers, calls;
  }

  /**
   * app_activate_cb after the bridge start-up: create one window per monitor, then
   * set the overall boundary, once, over all of them.
   */
  method Activate(g: Greeter, monitors: seq<Monitor>, strHash: string -> bv32)
    modifies g`browsers, g`calls
    ensures |g.browsers| == |monitors|
    ensures forall i, j :: 0 <= i < j < |g.browsers| ==> g.browsers[i] != g.browsers[j]
    ensures forall i :: 0 <= i < |g.browsers| ==>
      var b := g.browsers[i];
      fresh(b) && b.monitor == monitors[i] && b.isValid == (i == PRIMARY_MONITOR) &&
      b.debugMode == g.config.debugMode && !b.webView.loaded &&
      b.id == GenId(monitors[i].manufacturer, monitors[i].model, strHash)
    ensures forall i :: 0 <= i < |g.browsers| ==>
      g.browsers[i].meta == Meta(g.browsers[i].id, i == PRIMARY_MONITOR, WindowRects(monitors)[i], BoundaryOf(WindowRects(monitors)))
    ensures g.calls == old(g.calls) + BroadcastCalls(LoadThemeEverywhere, g.browsers)
  {
    CreateWindows(g, monitors, strHash);
    ghost var rects := WindowRects(monitors);
    assert Geometries(g.browsers) == rects;
    SetOverallBoundary(g.browsers);
  }
}
