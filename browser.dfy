/**
 * A greeter window, one per monitor (src/browser.c): its construction, its
 * properties, its id and the overall boundary shared by all windows.
 */
module Browsers {
  import opened Options
  import opened Geometry
  import opened WebViews

  /** What the window reads from its GdkMonitor. A NULL manufacturer or model is None. */
  datatype Monitor = Monitor(manufacturer: Option<string>, model: Option<string>, geometry: Rect)

  /** The monitor slot of a freshly allocated (zero-filled) instance. */
  const NoMonitor: Monitor := Monitor(None, None, Rect(0, 0, 0, 0))

  /** The metadata a window publishes to its web page. */
  datatype Meta = Meta(id: bv64, isValid: bool, geometry: Rect, overallBoundary: OverallBoundary)

  /** The metadata of a freshly allocated (zero-filled) instance. */
  const ZeroMeta: Meta := Meta(0, false, Rect(0, 0, 0, 0), OverallBoundary(0, 0, 0, 0))

  /** GObject property ids of the window class. */
  const PROP_ID: nat := 1
  const PROP_MONITOR: nat := 2
  const PROP_DEBUG_MODE: nat := 3
  const PROP_IS_VALID: nat := 4

  /** The GValue contents the window's properties carry. */
  datatype PropertyValue = IntValue(i: int) | MonitorValue(m: Monitor) | BoolValue(b: bool)

  /** A string's hash widened to 64 bits; a missing (NULL) string contributes 0. */
  function HashOrZero(s: Option<string>, strHash: string -> bv32): (h: bv64)
    ensures s.None? ==> h == 0
    ensures s.Some? ==> h == strHash(s.value) as bv64
  {
    match s
    case None => 0
    case Some(str) => strHash(str) as bv64
  }

  /** browser_gen_id: the manufacturer hash shifted by 24 bits, or-ed with the model hash shifted by 8. */
  function GenId(manufacturer: Option<string>, model: Option<string>, strHash: string -> bv32): (id: bv64)
    ensures id & 0xFF == 0
    ensures manufacturer.None? && model.None? ==> id == 0
  {
    (HashOrZero(manufacturer, strHash) << 24) | (HashOrZero(model, strHash) << 8)
  }

  /** Nothing above bit 55 of an id is ever set. */
  lemma GenIdBits(manufacturer: Option<string>, model: Option<string>, strHash: string -> bv32)
    ensures GenId(manufacturer, model, strHash) >> 56 == 0
  {
    var mh := HashOrZero(manufacturer, strHash);
    var dh := HashOrZero(model, strHash);
    assert mh >> 32 == 0 && dh >> 32 == 0;
  }

  /** Without a model string the id is the manufacturer hash in bits 24..55; without both it is 0. */
  lemma GenIdManufacturerOnly(manufacturer: Option<string>, strHash: string -> bv32)
    ensures GenId(manufacturer, None, strHash) >> 24 == HashOrZero(manufacturer, strHash)
    ensures GenId(manufacturer, None, strHash) & 0xFF_FFFF == 0
    ensures manufacturer.None? ==> GenId(manufacturer, None, strHash) == 0
  {
    var mh := HashOrZero(manufacturer, strHash);
    assert mh >> 32 == 0;
  }

  /** Without a manufacturer string the id is the model hash in bits 8..39. */
  lemma GenIdModelOnly(model: Option<string>, strHash: string -> bv32)
    ensures GenId(None, model, strHash) >> 8 == HashOrZero(model, strHash)
    ensures GenId(None, model, strHash) >> 40 == 0
  {
    var dh := HashOrZero(model, strHash);
    assert dh >> 32 == 0;
  }

  /**
   * g_value_set_int on a guint64: the low 32 bits read as a two's-complement gint
   * (what the C conversion does on the platforms the greeter runs on).
   */
  function GintOf(x: bv64): (r: int)
    ensures -0x8000_0000 <= r < 0x8000_0000
  {
    var low := ((x & 0xFFFF_FFFF) as bv32) as int;
    if low < 0x8000_0000 then low else low - 0x1_0000_0000
  }

  /**
   * The "id" property is declared with the range 0..INT_MAX, yet reading it back from a
   * window whose manufacturer hash has bit 7 set gives a negative number.
   */
  lemma IdPropertyCanBeNegative(manufacturer: string, strHash: string -> bv32)
    requires strHash(manufacturer) == 0x80
    ensures GintOf(GenId(Some(manufacturer), None, strHash)) == -0x8000_0000
  {
    assert GenId(Some(manufacturer), None, strHash) == 0x8000_0000;
  }

  class Browser {
    const webView: WebView
    var monitor: Monitor
    var debugMode: bool
    var isValid: bool
    /** BrowserPrivate.id */
    var id: bv64
    /** The default size given to the toolkit window. */
    var defaultWidth: int
    var defaultHeight: int
    var meta: Meta
    /** Toolkit window state that the commands toggle. */
    var fullscreen: bool
    var menubarShown: bool

    /**
     * browser_new_full: instance init (a new web view, is_valid = true), then the
     * construct properties in the order given, then browser_constructed.
     * A new toolkit window is not fullscreen and shows no menubar.
     */
    constructor Full(monitor: Monitor, debugMode: bool, isValid: bool, strHash: string -> bv32)
      ensures this.monitor == monitor && this.debugMode == debugMode && this.isValid == isValid
      ensures fresh(webView) && !webView.loaded
      ensures id == GenId(monitor.manufacturer, monitor.model, strHash)
      ensures defaultWidth == monitor.geometry.width && defaultHeight == monitor.geometry.height
      ensures meta == Meta(id, isValid, Rect(0, 0, monitor.geometry.width, monitor.geometry.height), OverallBoundary(0, 0, 0, 0))
      ensures fullscreen == !debugMode && menubarShown == debugMode
    {
      webView := new WebView();
      this.isValid := true;
      this.monitor, this.debugMode, id := NoMonitor, false, 0;
      defaultWidth, defaultHeight, meta := 0, 0, ZeroMeta;
      fullscreen, menubarShown := false, false;
      new;
      SetProperty(PROP_MONITOR, MonitorValue(monitor));
      SetProperty(PROP_DEBUG_MODE, BoolValue(debugMode));
      SetProperty(PROP_IS_VALID, BoolValue(isValid));
      Constructed(strHash);
    }

    /** browser_new: the construct-only properties not given take their defaults (debug off, valid). */
    constructor (monitor: Monitor, strHash: string -> bv32)
      ensures this.monitor == monitor && !debugMode && isValid
      ensures fresh(webView) && !webView.loaded
      ensures id == GenId(monitor.manufacturer, monitor.model, strHash)
      ensures meta == Meta(id, true, Rect(0, 0, monitor.geometry.width, monitor.geometry.height), OverallBoundary(0, 0, 0, 0))
      ensures fullscreen && !menubarShown
    {
      webView := new WebView();
      this.isValid := true;
      this.monitor, debugMode, id := NoMonitor, false, 0;
      defaultWidth, defaultHeight, meta := 0, 0, ZeroMeta;
      fullscreen, menubarShown := false, false;
      new;
      SetProperty(PROP_MONITOR, MonitorValue(monitor));
      SetProperty(PROP_DEBUG_MODE, BoolValue(false));
      SetProperty(PROP_IS_VALID, BoolValue(true));
      Constructed(strHash);
    }

    /** browser_constructed, without the toolkit plumbing (cursor, CSS, actions, developer tools). */
    method Constructed(strHash: string -> bv32)
      modifies this`defaultWidth, this`defaultHeight, this`id, this`meta, this`fullscreen, this`menubarShown
      ensures defaultWidth == monitor.geometry.width && defaultHeight == monitor.geometry.height
      ensures id == GenId(monitor.manufacturer, monitor.model, strHash)
      ensures meta == Meta(id, isValid, Rect(0, 0, defaultWidth, defaultHeight), old(meta).overallBoundary)
      ensures debugMode ==> menubarShown && fullscreen == old(fullscreen)
      ensures !debugMode ==> fullscreen && menubarShown == old(menubarShown)
    {
      defaultWidth, defaultHeight := monitor.geometry.width, monitor.geometry.height;
      id := GenId(monitor.manufacturer, monitor.model, strHash);
      InitiateMetadata();
      if debugMode {
        menubarShown := true;
      } else {
        fullscreen := true;
      }
    }

    /** browser_initiate_metadata: copy id and validity, place the window at (0, 0) with its default size. */
    method InitiateMetadata()
      modifies this`meta
      ensures meta.id == id && meta.isValid == isValid
      ensures meta.geometry == Rect(0, 0, defaultWidth, defaultHeight)
      ensures meta.overallBoundary == old(meta.overallBoundary)
    {
      meta := meta.(id := id, isValid := isValid);
      meta := meta.(geometry := meta.geometry.(x := 0, y := 0));
      meta := meta.(geometry := meta.geometry.(width := defaultWidth, height := defaultHeight));
    }

    /** browser_get_property: the value a property id reads as, None when the id is unknown. */
    function Property(propertyId: nat): (v: Option<PropertyValue>)
      reads this
      ensures v.None? <==> !(PROP_ID <= propertyId <= PROP_IS_VALID)
      ensures propertyId == PROP_ID ==> v.Some? && v.value.IntValue? && -0x8000_0000 <= v.value.i < 0x8000_0000
    {
      if propertyId == PROP_ID then Some(IntValue(GintOf(id)))
      else if propertyId == PROP_MONITOR then Some(MonitorValue(monitor))
      else if propertyId == PROP_DEBUG_MODE then Some(BoolValue(debugMode))
      else if propertyId == PROP_IS_VALID then Some(BoolValue(isValid))
      else None
    }

    /**
     * browser_set_property. The property system hands over a value of the declared
     * type; "id" is read-only and any other unknown id falls to the default branch.
     */
    method SetProperty(propertyId: nat, value: PropertyValue)
      requires propertyId == PROP_MONITOR ==> value.MonitorValue?
      requires propertyId == PROP_DEBUG_MODE || propertyId == PROP_IS_VALID ==> value.BoolValue?
      modifies this`monitor, this`debugMode, this`isValid
      ensures PROP_MONITOR <= propertyId <= PROP_IS_VALID ==> Property(propertyId) == Some(value)
      ensures forall p :: p != propertyId ==> Property(p) == old(Property(p))
      ensures !(PROP_MONITOR <= propertyId <= PROP_IS_VALID) ==>
        monitor == old(monitor) && debugMode == old(debugMode) && isValid == old(isValid)
    {
      if propertyId == PROP_MONITOR {
        monitor := value.m;
      } else if propertyId == PROP_DEBUG_MODE {
        debugMode := value.b;
      } else if propertyId == PROP_IS_VALID {
        isValid := value.b;
      }
    }

    /** Every field except `meta` has its old value. */
    twostate predicate OnlyMetaChanged()
      reads this
    {
      old(monitor) == monitor && old(debugMode) == debugMode && old(isValid) == isValid &&
      old(id) == id && old(defaultWidth) == defaultWidth && old(defaultHeight) == defaultHeight &&
      old(fullscreen) == fullscreen && old(menubarShown) == menubarShown
    }
  }

  /** The geometry each window publishes, in array order. */
  function Geometries(browsers: seq<Browser>): (gs: seq<Rect>)
    reads set b | b in browsers
    ensures |gs| == |browsers|
    ensures forall i :: 0 <= i < |browsers| ==> gs[i] == browsers[i].meta.geometry
  {
    if browsers == [] then []
    else Geometries(browsers[..|browsers| - 1]) + [browsers[|browsers| - 1].meta.geometry]
  }

  /** The first loop of browser_set_overall_boundary: fold min/max over the geometries, in array order. */
  method FoldBoundary(browsers: seq<Browser>) returns (overall: OverallBoundary)
    ensures overall == BoundaryOf(Geometries(browsers))
  {
    ghost var geometries := Geometries(browsers);
    overall := InitialBoundary;
    for i := 0 to |browsers|
      invariant overall == BoundaryOf(geometries[..i])
    {
      assert geometries[..i + 1][..i] == geometries[..i];
      overall := Accumulate(overall, browsers[i].meta.geometry);
    }
    assert geometries[..|browsers|] == geometries;
  }

  /** The second loop of browser_set_overall_boundary: write the same boundary into every window. */
  method PublishBoundary(browsers: seq<Browser>, overall: OverallBoundary)
    modifies set b | b in browsers
    ensures forall j :: 0 <= j < |browsers| ==> browsers[j].meta == old(browsers[j].meta).(overallBoundary := overall)
    ensures forall j :: 0 <= j < |browsers| ==> browsers[j].OnlyMetaChanged()
  {
    for i := 0 to |browsers|
      invariant forall j :: 0 <= j < |browsers| ==>
        && browsers[j].meta.id == old(browsers[j].meta.id)
        && browsers[j].meta.isValid == old(browsers[j].meta.isValid)
        && browsers[j].meta.geometry == old(browsers[j].meta.geometry)
      invariant forall j :: 0 <= j < i ==> browsers[j].meta.overallBoundary == overall
      invariant forall j :: 0 <= j < |browsers| ==> browsers[j].OnlyMetaChanged()
    {
      browsers[i].meta := browsers[i].meta.(overallBoundary := overall);
    }
  }

  /**
   * browser_set_overall_boundary: fold min/max over every window's geometry, then
   * write the same aggregate into every window. An empty array writes nothing.
   */
  method SetOverallBoundary(browsers: seq<Browser>)
    modifies set b | b in browsers
    ensures forall j :: 0 <= j < |browsers| ==>
      browsers[j].meta == old(browsers[j].meta).(overallBoundary := BoundaryOf(old(Geometries(browsers))))
    ensures forall j :: 0 <= j < |browsers| ==> browsers[j].OnlyMetaChanged()
  {
    var overall := FoldBoundary(browsers);
    PublishBoundary(browsers, overall);
  }
}
