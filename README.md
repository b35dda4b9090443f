# sea-greeter control process, modelled in Dafny

This project models the control-process side of sea-greeter, the LightDM greeter
that shows one WebKit window per monitor. It covers four pieces:

- **Message dispatch of a window's web view** (`WebViewMessages`, `Messages`,
  `WebViews`):
  - the first `ready-to-show` focuses and presents the window and sets the view's
    `loaded` flag; later ones do nothing;
  - a `console` message opens the error prompt, whose answer may switch the shared
    theme to `gruvbox` and re-theme every window, reload every window, or do
    nothing, and is followed by exactly one `console-done` reply carrying the
    `(b)` stop-prompts flag;
  - every other message goes to the lightdm, greeter_config, theme_utils and
    greeter_comm handlers, in that order.
- **The window registry** (`Browsers`, `Registry`, `Geometry`, `Main`):
  - `greeter_browsers` is filled with one window per monitor, and only the first
    is valid;
  - each window gets an id built from its monitor's manufacturer and model hashes;
  - each window's metadata places it at (0, 0) with its monitor's size;
  - the overall boundary is folded over all windows and written into each;
  - finalizing a window removes it from the array;
  - the window properties can be set and read back.
- **Command-line resolution** (`CommandLine`): `--version`, `--api-version` and
  `--list` exit early; any two of `--mode`, `--debug` and `--normal` clash; the
  mode value is validated; the theme override and the debug flag are applied.
- **Keyboard accelerators** (`Main`): `set_keybindings` registers the rows of the
  accelerator table in order and stops at its NULL-action sentinel.
- **Window commands** (`Commands`): stepping the zoom level through the
  12-entry `zoom_steps` table, and the zoom-normal, inspector and fullscreen
  commands.

State the C code updates in place is kept in classes:

- `Browsers.Browser` holds a window's fields and metadata;
- `WebViews.WebView` holds the `loaded` flag, the zoom level and whether the
  inspector is shown;
- `Registry.Greeter` holds `greeter_browsers`, `greeter_config->greeter` and a
  record of every call made into code outside the model, oldest first.

The calls it records are `load_theme`, `webkit_web_view_reload`, focus and
present, the four bridge handlers, the reply send and `gtk_window_destroy`. Order,
count and "every window" properties are stated over that record. Whatever the
process cannot compute itself is a parameter:

- the user's answer to the error prompt;
- whether the view's toplevel is a greeter window;
- the parsed command-line flags and the loaded configuration;
- the list of monitors;
- `g_str_hash`, as `strHash: string -> bv32`.

## Model

| member | source | states |
|---|---|---|
| `WebViews.WebView.constructor` | src/browser-web-view.c:188-193 | A new web view has `loaded == false`. |
| `Messages.DecodeConsole` | src/browser-web-view.c:34-41 | The report is filled exactly when the payload is present and has type `(sssu)`; otherwise the locals keep NULL, NULL, NULL, 0. |
| `Messages.DecodeEncodeConsole` | src/browser-web-view.c:41 | Decoding a packed `(sssu)` report gives back all four fields. |
| `Messages.ConsoleDoneCarriesFlag` | src/browser-web-view.c:85-86 | The reply's payload is the one-element tuple `(b)`, and reading it gives back exactly the stop-prompts flag. |
| `WebViewMessages.Decide` | src/browser-web-view.c:58-84 | Prompts stop iff every window is re-themed or reloaded. A new theme is chosen iff the re-theme path runs. That theme is always `gruvbox`. |
| `WebViewMessages.BroadcastCalls` | src/browser-web-view.c:69-80 | A fan-out makes one call per registered window, in array order. Re-theming calls `load_theme` on window i; reloading reloads window i's view. |
| `WebViewMessages.BroadcastSendsNoReply` | src/browser-web-view.c:69-80 | Neither fan-out loop sends a reply. |
| `WebViewMessages.FirstReadyToShow` | src/browser-web-view.c:99-111 | On a view not yet loaded, `ready-to-show` focuses the view, presents the window and sets `loaded`. It does nothing else. |
| `WebViewMessages.Receive` | src/browser-web-view.c:93-123 | A message only appends to the call record, and it appends something unless it is a `ready-to-show` to a loaded view. `loaded` is never cleared, and only `ready-to-show` sets it. Only `console` can change the configuration. |
| `WebViewMessages.ReadyToShowWhenLoaded` | src/browser-web-view.c:99-102 | A `ready-to-show` to a loaded view leaves the whole state as it was. |
| `WebViewMessages.LoadedReceive` | src/browser-web-view.c:93-123 | On a loaded view, a message of any name keeps `loaded` set and neither focuses the view nor presents the window. |
| `WebViewMessages.LoadedIsFinal` | src/browser-web-view.c:99-111 | Once `loaded` is set, no later sequence of messages of any names clears it, rewrites earlier calls, or focuses or presents a second time. |
| `WebViewMessages.ReadyToShowIdempotent` | src/browser-web-view.c:99-111 | Any non-empty run of `ready-to-show` messages has the effect of the first alone. |
| `WebViewMessages.ClaimedMessagesNotForwarded` | src/browser-web-view.c:99-117 | `ready-to-show` and `console` only append calls, and none of them goes to a bridge handler. `ready-to-show` leaves the configuration alone. |
| `WebViewMessages.OtherMessagesForwarded` | src/browser-web-view.c:119-122 | Any other name is handed, unchanged, to the lightdm, greeter_config, theme_utils and greeter_comm handlers in that order. Nothing else changes. |
| `WebViewMessages.ConsoleRepliesOnce` | src/browser-web-view.c:85-87 | A `console` message gets exactly one reply. It is the last call, named `console-done`, and carries the decided flag. |
| `WebViewMessages.ConsoleCancel` | src/browser-web-view.c:58-87 | Cancel or an unknown response sends one reply `(false)`. It changes neither the theme, nor any window, nor `loaded`. |
| `WebViewMessages.ConsoleDefaultTheme` | src/browser-web-view.c:63-73 | From a greeter window: the theme becomes `gruvbox`, `load_theme` runs on every window in order, and the reply is `(true)`. From any other toplevel: nothing changes and the reply is `(false)`. |
| `WebViewMessages.ConsoleReloadTheme` | src/browser-web-view.c:74-81 | Every window's view reloads, in order. The theme stays. The reply is `(true)`. |
| `WebViewMessages.ShowConsoleErrorPrompt` | src/browser-web-view.c:31-88 | The loops over `greeter_browsers` leave the configuration and the call record as the decision and its fan-out prescribe, followed by the reply. |
| `WebViewMessages.UserMessageReceived` | src/browser-web-view.c:93-123 | The new `loaded` flag, configuration and call record are those the dispatch rules give for the old state. |
| `Geometry.EmptyBoundary` | src/browser.c:112-117 | With no windows the boundary is the sentinel: `INT_MAX` for both minima, `-INT_MAX` (not `INT_MIN`) for both maxima. |
| `Geometry.BoundaryCovers` | src/browser.c:119-126 | The folded boundary lies on or outside every window's rectangle: minX/minY at most each x/y, maxX/maxY at least each x+width/y+height. |
| `Geometry.BoundaryAttained` | src/browser.c:119-126 | Each coordinate of the boundary is either its sentinel or the matching coordinate of some window. |
| `Geometry.NonEmptyBoundaryExact` | src/browser.c:119-126 | With at least one window inside the sentinels, each coordinate is attained by some window. Together with `BoundaryCovers`, it is the minimum of x/y and the maximum of x+width/y+height. |
| `Browsers.GenId` | src/browser.c:79-89 | The id's low 8 bits are always zero, and a window whose monitor has neither manufacturer nor model gets id 0. |
| `Browsers.GenIdBits` | src/browser.c:79-89 | Nothing above bit 55 of an id is set. |
| `Browsers.GenIdManufacturerOnly` | src/browser.c:85-88 | Without a model, the id is the manufacturer hash shifted left by 24. With neither string, the id is 0. |
| `Browsers.GenIdModelOnly` | src/browser.c:85-88 | Without a manufacturer, the id is the model hash shifted left by 8. |
| `Browsers.GintOf` | src/browser.c:200-201 | Storing the 64-bit id into a gint keeps it in the 32-bit signed range. |
| `Browsers.IdPropertyCanBeNegative` | src/browser.c:200-201 | The `id` property is declared with range 0..INT_MAX (line 230). A manufacturer hash of 0x80 still reads back as -2147483648. |
| `Browsers.Browser.Full` | src/browser.c:271-286 | browser_new_full leaves the given monitor, debug mode and validity, a fresh unloaded view, and the generated id. The metadata is (id, validity, (0,0,w,h)). Without debug mode the window is fullscreen; in debug mode it shows the menubar. |
| `Browsers.Browser.constructor` | src/browser.c:265-270 | browser_new leaves debug mode off and `is_valid` true, by the construct defaults. |
| `Browsers.Browser.Constructed` | src/browser.c:133-171 | The default size is the monitor's, and the id is generated from the monitor. The metadata is initiated. Debug mode shows the menubar; otherwise the window goes fullscreen. |
| `Browsers.Browser.InitiateMetadata` | src/browser.c:91-107 | `meta` takes the id and validity, and its geometry is (0, 0) with the default size. The overall boundary is untouched. |
| `Browsers.Browser.Property` | src/browser.c:192-215 | Ids 1..4 read back a value and any other id reads nothing. The id property is a gint. |
| `Browsers.Browser.SetProperty` | src/browser.c:173-191 | Setting monitor, debug_mode or is_valid makes that property read back the value. Every other property is unchanged. Unknown ids, and the read-only id, change nothing. |
| `Browsers.FoldBoundary` | src/browser.c:112-126 | The first loop yields the boundary folded over the windows' geometries in array order, starting from the sentinels. |
| `Browsers.PublishBoundary` | src/browser.c:127-130 | The second loop writes the one given boundary into every window's `meta`. The rest of `meta` and every other field of every window are unchanged. |
| `Browsers.SetOverallBoundary` | src/browser.c:109-131 | Every window's `meta.overall_boundary` becomes the one boundary folded over all old geometries. The rest of `meta` and every other field are unchanged. An empty array writes nothing. |
| `Registry.Greeter.constructor` | src/main.c:160 | The registry starts empty. |
| `Registry.RemoveFirst` | src/browser.c:43 | `g_ptr_array_remove` shortens the array by one exactly when the element is in it, and adds no element. |
| `Registry.RemoveFirstSpec` | src/browser.c:43 | Removing a window not in the array changes nothing. Otherwise exactly its first occurrence is cut out and the order of the rest is kept. |
| `Registry.RemoveFirstDistinct` | src/browser.c:43 | In an array without repeats, the removed window is gone and every other window stays. |
| `Registry.Finalize` | src/browser.c:30-45 | Finalizing destroys the toolkit window, then removes the window from `greeter_browsers`. |
| `CommandLine.Resolve` | src/main.c:236-286 | Exit code 0 is given exactly for the early exits and 1 for every other exit. When the process goes on, only the theme and debug mode can differ from the loaded configuration. |
| `CommandLine.EarlyExitPrecedence` | src/main.c:236-247 | `--version`, then `--api-version`, then `--list` exit 0 in that precedence. The loaded configuration plays no part. |
| `CommandLine.ConflictingModes` | src/main.c:257-269 | Any two of `--mode`, `--debug` and `--normal` exit 1, with the message for the first matching clash. |
| `CommandLine.ModeValidated` | src/main.c:271-278 | `--mode` alone goes on iff its value is `debug` or `normal`. Otherwise the process exits 1. |
| `CommandLine.ContinueExactly` | src/main.c:236-278 | The process goes on iff there is no early exit, at most one mode flag and a valid mode. |
| `CommandLine.ContinuedConfiguration` | src/main.c:249-286 | `--theme` replaces the loaded theme. `--debug` or `--mode=debug` sets debug mode; `--normal` or `--mode=normal` clears it. Otherwise the loaded value stays. |
| `CommandLine.ParseArgs` | src/main.c:199-289 | The outcome is the decision table's. The configuration is untouched on an early exit. On a later exit it is the loaded configuration with the theme override. On going on, it is the resolved one. |
| `Commands.ZoomStepsAscending` | src/browser-commands.c:6-12 | The zoom table is strictly ascending. |
| `Commands.LastAtOrBelow` | src/browser-commands.c:21-25 | Among the first `n` entries, the result is the last one at or below the level, or 0 when there is none. Every later entry among them is above the level. |
| `Commands.BaseIndex` | src/browser-commands.c:21-25 | The base index is the last entry at or below the current level, or 0 when the level is below the whole table. |
| `Commands.BaseIndexUnique` | src/browser-commands.c:17-25 | Those conditions determine the base index uniquely. |
| `Commands.Clamp` | src/browser-commands.c:26-34 | A target index above the table gives the last entry, one at or below 0 gives entry 0, and indices in between are kept. |
| `Commands.StepLevel` | src/browser-commands.c:14-37 | The new level is always an entry of the zoom table. |
| `Commands.ZoomStepLevel` | src/browser-commands.c:14-37 | The upward scan with its break finds the base index. The result is the clamped step from it, and is a table entry. |
| `Commands.StepLevelMonotoneInSteps` | src/browser-commands.c:26-34 | A larger step count never gives a smaller level. |
| `Commands.StepLevelMonotoneInCurrent` | src/browser-commands.c:21-34 | A higher current level never gives a lower result. |
| `Commands.BaseIndexOfEntry` | src/browser-commands.c:21-25 | On a table entry, the base index is that entry's index. |
| `Commands.StepFromEntry` | src/browser-commands.c:21-34 | From a table entry, +1 and -1 move to the neighbouring entries and stop at the ends. |
| `Commands.ZoomLimits` | src/browser-commands.c:28-31 | Zooming in from 3.00 stays at 3.00, and zooming out from 0.30 stays at 0.30. |
| `Commands.ZoomSaturates` | src/browser-commands.c:21-34 | Zoom-in from any level at or above 3.00 gives 3.00. Zoom-out from any level below 0.50 gives 0.30. |
| `Commands.ZoomInOutRoundTrip` | src/browser-commands.c:21-34 | On an entry that is not at the respective end, zoom-in then zoom-out returns to the entry, and so does the reverse. |
| `Commands.ZoomOutBetweenEntries` | src/browser-commands.c:21-34 | Strictly between two inner entries, the lower one is the base: zoom-out skips it and lands one entry further down, and zoom-in lands on the upper one. |
| `Commands.SetZoom` | src/browser-commands.c:61-72 | The view's zoom level becomes the table step from its old level, +1 for in and -1 for out. |
| `Commands.ZoomInCallback` | src/browser-commands.c:73-80 | Zoom-in steps the level by +1. |
| `Commands.ZoomOutCallback` | src/browser-commands.c:81-88 | Zoom-out steps the level by -1. |
| `Commands.ZoomNormalCallback` | src/browser-commands.c:89-96 | Zoom-normal sets the level to exactly 1.0. |
| `Commands.ToggleInspectorCallback` | src/browser-commands.c:42-59 | The inspector closes when shown and shows when closed. |
| `Commands.ShowMenuBar` | src/browser.c:73-77 | The menubar's visibility becomes the argument. |
| `Commands.FullscreenCallback` | src/browser-commands.c:267-281 | Fullscreen flips, and the menubar is shown exactly when the window has left fullscreen. |
| `Main.AcceleratorsTerminated` | src/main.c:68-97 | The accelerator table has 17 named rows followed by its NULL sentinel. |
| `Main.SetKeybindings` | src/main.c:99-104 | Rows are registered in table order, each with its own accelerators. Registration stops at the first row without an action, or at the end. |
| `Main.ActivationOrigin` | src/main.c:170-178 | With at least one monitor, every window sits at (0, 0), so the overall boundary's minX and minY are 0. |
| `Main.ActivationCovers` | src/main.c:170-178 | The overall boundary reaches every monitor's width and height. |
| `Main.AddWindows` | src/main.c:170-177 | The loop yields one distinct fresh window per monitor, in monitor order, valid only at index 0, with the given debug mode. `load_theme` is called on each window in order. |
| `Main.CreateWindows` | src/main.c:160-177 | The new `greeter_browsers` has one distinct fresh window per monitor, in monitor order, valid only at index 0, with the configured debug mode. `load_theme` is called on each, in order. |
| `Main.Activate` | src/main.c:144-179 | After activation, each window's metadata also carries the boundary over all windows' rectangles. That boundary is set once, after the last window was added. |

## Left out

- Toolkit and engine plumbing with no logic of its own:
  - CSS providers, action maps, menubar resources, the web view's settings and
    background colour, the context-menu handler and the X11 root cursor.
  - `initialize_web_process_extensions`, which packs `(bb)` from secure mode and
    theme-error detection.
  - The bridge `*_initialize`/`*_destroy` calls.
  - Process start-up and teardown in `main`.
- The error prompt's dialog: the user's answer is a parameter, and the dialog text
  built from the decoded report is not modelled.
- `load_configuration`, `load_theme_config`, `print_themes` and option parsing by
  `GOptionContext`:
  - the loaded configuration and the parsed flags are inputs;
  - `printf`/`exit` become the returned `Exit` outcome.
- `load_theme`, `webkit_web_view_reload`, focus, present, reply sending and the
  four bridge handlers are recorded as calls, not executed; their bodies are not
  part of this model.
- `g_str_hash` is an arbitrary function supplied by the caller.
- Main.SetKeybindings: returns the (action, accelerators) pairs it registers instead
  of calling `gtk_application_set_accels_for_action`.
- The clipboard, editing, reload, force-reload, close and minimize commands, which
  are single toolkit calls.
- Integer width of the geometry: `x + width` is computed on unbounded integers, so
  a C `int` overflow of that sum is not modelled.
- Commands.SetZoom: the zoom table and levels are real numbers, so the
  float/double conversions of `browser_set_zoom` and `get_zoom_step_level` are not
  modelled. Codes other than zoom-in/zoom-out, which rewrite the level unchanged,
  are not representable in `ZoomDirection`.
- Toolkit defaults are taken as: a new window is neither fullscreen nor shows a
  menubar; a new view has zoom level 1.0 and no inspector.
- Messages.DecodeConsole: a payload of the wrong type is read as leaving the
  locals at their initial values (GLib would also log a critical).
- Main.CreateWindows: the array and the call record are built in locals and
  published after the loop. The intermediate states, which no modelled code reads,
  are not represented.
- Browsers.Browser.Constructed: does not model the `browser_web_view_set_developer_tools` calls, which attach the inspector in
  debug mode and detach it otherwise. It does not model that the fullscreen and inspector actions are registered
  only in debug mode either. So `FullscreenCallback` and `ToggleInspectorCallback` can run on any window here,
  although the toolkit only offers them to debug windows.
- WebViewMessages.UserMessageReceived: the prompt's answer is an input. As written, the source collects it with
  `gtk_alert_dialog_choose_finish` right after `gtk_alert_dialog_choose` with no callback. That call is likely to fail
  its argument check and return -1, which is the Cancel-like default, so the re-theme and reload branches may not
  be reachable in the program as it stands. This reading of GTK was not executed.
- Dispose and reference counting of windows and views (`browser_dispose`,
  `g_object_unref`), and aliasing between windows and the toolkit.
