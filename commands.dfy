/**
 * Window commands (src/browser-commands.c): zoom stepping through a fixed table,
 * and the inspector and fullscreen toggles. Zoom levels are real numbers.
 */
module Commands {
  import opened WebViews
  import opened Browsers

  /** zoom_steps: the levels zoom-in and zoom-out move between, ascending. */
  const ZoomSteps: seq<real> := [0.30, 0.50, 0.75, 0.85, 1.00, 1.15, 1.25, 1.50, 1.75, 2.00, 2.50, 3.00]

  /** The index of the last table entry. */
  const LastStep: nat := |ZoomSteps| - 1

  predicate Ascending(s: seq<real>)
  {
    forall i, j :: 0 <= i < j < |s| ==> s[i] < s[j]
  }

  lemma ZoomStepsAscending()
    ensures Ascending(ZoomSteps)
  {
  }

  /**
   * The last index below `n` whose entry is at most `current`, looking from the top
   * down; 0 when every entry below `n` is above `current`.
   */
  function LastAtOrBelow(current: real, n: nat): (k: nat)
    requires n <= |ZoomSteps|
    ensures 0 < n ==> k < n
    ensures 0 < n ==> ZoomSteps[k] <= current || (k == 0 && current < ZoomSteps[0])
    ensures forall j :: k < j < n ==> current < ZoomSteps[j]
  {
    if n == 0 then 0
    else if ZoomSteps[n - 1] <= current then n - 1
    else LastAtOrBelow(current, n - 1)
  }

  /**
   * The nearest lower entry of `current`: the last i with zoom_steps[i] <= current,
   * or entry 0 when `current` is below the whole table.
   */
  function BaseIndex(current: real): (k: nat)
    ensures k <= LastStep
    ensures ZoomSteps[k] <= current || (k == 0 && current < ZoomSteps[0])
    ensures forall j :: k < j <= LastStep ==> current < ZoomSteps[j]
  {
    LastAtOrBelow(current, |ZoomSteps|)
  }

  lemma BaseIndexUnique(current: real, k: nat)
    requires k <= LastStep
    requires ZoomSteps[k] <= current || (k == 0 && current < ZoomSteps[0])
    requires forall j :: k < j <= LastStep ==> current < ZoomSteps[j]
    ensures BaseIndex(current) == k
  {
    ZoomStepsAscending();
  }

  /** The target index clamped to the table: above the end gives the last entry, 0 or below the first. */
  function Clamp(index: int): (k: nat)
    ensures k <= LastStep
    ensures index > LastStep ==> k == LastStep
    ensures index <= 0 ==> k == 0
    ensures 0 < index <= LastStep ==> k == index
  {
    if index > LastStep then LastStep
    else if index <= 0 then 0
    else index
  }

  /** get_zoom_step_level as a function: move `steps` entries from the base index, clamped. */
  function StepLevel(current: real, steps: int): (level: real)
    ensures level in ZoomSteps
  {
    ZoomSteps[Clamp(BaseIndex(current) + steps)]
  }

  /**
   * get_zoom_step_level: scan the table upward until an entry exceeds the current
   * level, remembering the last entry that did not, then step and clamp.
   */
  method ZoomStepLevel(current: real, steps: int) returns (level: real)
    ensures level == StepLevel(current, steps)
    ensures level in ZoomSteps
  {
    var nearIndex := 0;
    var i := 0;
    while i < |ZoomSteps|
      invariant 0 <= i <= |ZoomSteps|
      invariant nearIndex == if i == 0 then 0 else i - 1
      invariant forall j :: 0 <= j < i ==> ZoomSteps[j] <= current
    {
      if current < ZoomSteps[i] {
        break;
      }
      nearIndex := i;
      i := i + 1;
    }
    ZoomStepsAscending();
    BaseIndexUnique(current, nearIndex);
    var expectedIndex := nearIndex + steps;
    if expectedIndex > |ZoomSteps| - 1 {
      level := ZoomSteps[|ZoomSteps| - 1];
    } else if expectedIndex <= 0 {
      level := ZoomSteps[0];
    } else {
      level := ZoomSteps[expectedIndex];
    }
  }

  /** A larger step count never gives a smaller level. */
  lemma StepLevelMonotoneInSteps(current: real, steps1: int, steps2: int)
    requires steps1 <= steps2
    ensures StepLevel(current, steps1) <= StepLevel(current, steps2)
  {
    ZoomStepsAscending();
    var k1 := Clamp(BaseIndex(current) + steps1);
    var k2 := Clamp(BaseIndex(current) + steps2);
    assert k1 <= k2;
  }

  /** A higher current level never gives a lower result. */
  lemma StepLevelMonotoneInCurrent(current1: real, current2: real, steps: int)
    requires current1 <= current2
    ensures StepLevel(current1, steps) <= StepLevel(current2, steps)
  {
    ZoomStepsAscending();
    var b1, b2 := BaseIndex(current1), BaseIndex(current2);
    assert b1 <= b2;
    assert Clamp(b1 + steps) <= Clamp(b2 + steps);
  }

  /** On a table entry the base index is that entry's own index. */
  lemma BaseIndexOfEntry(i: nat)
    requires i <= LastStep
    ensures BaseIndex(ZoomSteps[i]) == i
  {
    ZoomStepsAscending();
    BaseIndexUnique(ZoomSteps[i], i);
  }

  /** From a table entry, zoom-in and zoom-out move to the neighbouring entries, stopping at the ends. */
  lemma StepFromEntry(i: nat)
    requires i <= LastStep
    ensures StepLevel(ZoomSteps[i], 1) == ZoomSteps[if i == LastStep then LastStep else i + 1]
    ensures StepLevel(ZoomSteps[i], -1) == ZoomSteps[if i == 0 then 0 else i - 1]
  {
    BaseIndexOfEntry(i);
  }

  /** Zooming in from 3.00 stays at 3.00; zooming out from 0.30 stays at 0.30. */
  lemma ZoomLimits()
    ensures StepLevel(3.00, 1) == 3.00
    ensures StepLevel(0.30, -1) == 0.30
  {
    StepFromEntry(LastStep);
    StepFromEntry(0);
  }

  /**
   * Beyond the ends of the table the level saturates: zoom-in from 3.00 or above gives
   * 3.00, and zoom-out from below 0.50 gives 0.30.
   */
  lemma ZoomSaturates(current: real)
    ensures current >= 3.00 ==> StepLevel(current, 1) == 3.00
    ensures current < 0.50 ==> StepLevel(current, -1) == 0.30
  {
    ZoomStepsAscending();
    if current >= 3.00 {
      BaseIndexUnique(current, LastStep);
    }
    if current < 0.50 {
      assert BaseIndex(current) == 0;
    }
  }

  /** On an inner table entry, zoom-in then zoom-out (and the reverse) returns to the entry. */
  lemma ZoomInOutRoundTrip(i: nat)
    requires i <= LastStep
    ensures i < LastStep ==> StepLevel(StepLevel(ZoomSteps[i], 1), -1) == ZoomSteps[i]
    ensures 0 < i ==> StepLevel(StepLevel(ZoomSteps[i], -1), 1) == ZoomSteps[i]
  {
    StepFromEntry(i);
    if i < LastStep {
      StepFromEntry(i + 1);
    }
    if 0 < i {
      StepFromEntry(i - 1);
    }
  }

  /**
   * Between two entries the base is the lower one, so zoom-out from there skips the
   * lower entry and lands one further down.
   */
  lemma ZoomOutBetweenEntries(current: real, i: nat)
    requires 0 < i < LastStep
    requires ZoomSteps[i] < current < ZoomSteps[i + 1]
    ensures StepLevel(current, -1) == ZoomSteps[i - 1]
    ensures StepLevel(current, 1) == ZoomSteps[i + 1]
  {
    ZoomStepsAscending();
    BaseIndexUnique(current, i);
  }

  /** Which way browser_set_zoom moves. */
  datatype ZoomDirection = ZoomIn | ZoomOut

  /** browser_set_zoom: read the view's level, step it by +1 (in) or -1 (out), write it back. */
  method SetZoom(browser: Browser, direction: ZoomDirection)
    modifies browser.webView`zoomLevel
    ensures browser.webView.zoomLevel
         == StepLevel(old(browser.webView.zoomLevel), if direction == ZoomIn then 1 else -1)
  {
    var view := browser.webView;
    var currentZoom := view.zoomLevel;
    if direction == ZoomIn {
      currentZoom := ZoomStepLevel(currentZoom, 1);
    } else {
      currentZoom := ZoomStepLevel(currentZoom, -1);
    }
    view.zoomLevel := currentZoom;
  }

  /** browser_zoom_in_cb */
  method ZoomInCallback(browser: Browser)
    modifies browser.webView`zoomLevel
    ensures browser.webView.zoomLevel == StepLevel(old(browser.webView.zoomLevel), 1)
  {
    SetZoom(browser, ZoomIn);
  }

  /** browser_zoom_out_cb */
  method ZoomOutCallback(browser: Browser)
    modifies browser.webView`zoomLevel
    ensures browser.webView.zoomLevel == StepLevel(old(browser.webView.zoomLevel), -1)
  {
    SetZoom(browser, ZoomOut);
  }

  /** browser_zoom_normal_cb: back to exactly 1.0, whatever the level was. */
  method ZoomNormalCallback(browser: Browser)
    modifies browser.webView`zoomLevel
    ensures browser.webView.zoomLevel == 1.0
  {
    browser.webView.zoomLevel := 1.0;
  }

  /** browser_toggle_inspector_cb: close the inspector when it is shown, show it when it is not. */
  method ToggleInspectorCallback(browser: Browser)
    modifies browser.webView`inspectorOpen
    ensures browser.webView.inspectorOpen == !old(browser.webView.inspectorOpen)
  {
    var view := browser.webView;
    if view.inspectorOpen {
      view.inspectorOpen := false;
    } else {
      view.inspectorOpen := true;
    }
  }

  /** browser_show_menu_bar */
  method ShowMenuBar(browser: Browser, show: bool)
    modifies browser`menubarShown
    ensures browser.menubarShown == show
  {
    browser.menubarShown := show;
  }

  /** browser_fullscreen_cb: flip fullscreen; the menubar shows exactly when the window leaves fullscreen. */
  method FullscreenCallback(browser: Browser)
    modifies browser`fullscreen, browser`menubarShown
    ensures browser.fullscreen == !old(browser.fullscreen)
    ensures browser.menubarShown == !browser.fullscreen
  {
    if browser.fullscreen {
      browser.fullscreen := false;
      ShowMenuBar(browser, true);
    } else {
      browser.fullscreen := true;
      ShowMenuBar(browser, false);
    }
  }
}
