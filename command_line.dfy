/**
 * Command-line resolution in g_application_parse_args (src/main.c): the early
 * exits, the theme override, mode conflicts and validation, and the debug flag.
 * Option parsing itself is the toolkit's; the model starts from the parsed flags.
 */
module CommandLine {
  import opened Options
  import opened Settings
  import opened Registry

  /** The parsed options. A string option not given is None. */
  datatype Args = Args(
    version: bool,
    apiVersion: bool,
    mode: Option<string>,
    debug: bool,
    normal: bool,
    theme: Option<string>,
    list: bool)

  /** Why the process exits, i.e. which message it prints first. */
  datatype ExitReason =
    | PrintVersion
    | PrintApiVersion
    | ListThemes
    | ConflictModeDebugNormal
    | ConflictModeDebug
    | ConflictModeNormal
    | ConflictDebugNormal
    | InvalidMode

  /** Either the process exits with a code, or it goes on with the resulting configuration. */
  datatype Outcome = Exit(code: int, reason: ExitReason) | Continue(config: GreeterSettings)

  /** One of the options that print something and exit before the configuration is loaded. */
  predicate EarlyExit(args: Args)
  {
    args.version || args.apiVersion || args.list
  }

  /**
   * The decision table of g_application_parse_args. `loaded` is what
   * load_configuration produces; it is consulted only after the three early exits.
   */
  function Resolve(args: Args, loaded: GreeterSettings): (r: Outcome)
    ensures r.Exit? ==> r.code == (if EarlyExit(args) then 0 else 1)
    ensures r.Continue? ==> r.config == loaded.(theme := r.config.theme, debugMode := r.config.debugMode)
  {
    if args.version then Exit(0, PrintVersion)
    else if args.apiVersion then Exit(0, PrintApiVersion)
    else if args.list then Exit(0, ListThemes)
    else
      var config := if args.theme.Some? then loaded.(theme := args.theme.value) else loaded;
      if args.mode.Some? && args.debug && args.normal then Exit(1, ConflictModeDebugNormal)
      else if args.mode.Some? && args.debug then Exit(1, ConflictModeDebug)
      else if args.mode.Some? && args.normal then Exit(1, ConflictModeNormal)
      else if args.debug && args.normal then Exit(1, ConflictDebugNormal)
      else if args.mode.Some? && args.mode.value != "debug" && args.mode.value != "normal" then Exit(1, InvalidMode)
      else
        var debug := args.debug || args.mode == Some("debug");
        var normal := args.normal || args.mode == Some("normal");
        Continue(if debug then config.(debugMode := true) else if normal then config.(debugMode := false) else config)
  }

  /** How many of --mode, --debug and --normal were given. */
  function ModeFlags(args: Args): nat
  {
    (if args.mode.Some? then 1 else 0) + (if args.debug then 1 else 0) + (if args.normal then 1 else 0)
  }

  /**
   * --version, then --api-version, then --list exit with 0, in that order of
   * precedence, before the configuration is consulted or any conflict checked.
   */
  lemma EarlyExitPrecedence(args: Args, loaded: GreeterSettings, other: GreeterSettings)
    requires EarlyExit(args)
    ensures Resolve(args, loaded) == Resolve(args, other)
    ensures Resolve(args, loaded) == Exit(0,
      if args.version then PrintVersion else if args.apiVersion then PrintApiVersion else ListThemes)
  {
  }

  /** Any two of --mode, --debug and --normal together exit with 1, naming the clash. */
  lemma ConflictingModes(args: Args, loaded: GreeterSettings)
    requires !EarlyExit(args) && ModeFlags(args) >= 2
    ensures Resolve(args, loaded).Exit? && Resolve(args, loaded).code == 1
    ensures Resolve(args, loaded).reason ==
      if ModeFlags(args) == 3 then ConflictModeDebugNormal
      else if args.mode.Some? && args.debug then ConflictModeDebug
      else if args.mode.Some? then ConflictModeNormal
      else ConflictDebugNormal
  {
  }

  /** --mode alone accepts only "debug" and "normal"; anything else exits with 1. */
  lemma ModeValidated(args: Args, loaded: GreeterSettings)
    requires !EarlyExit(args) && ModeFlags(args) == 1 && args.mode.Some?
    ensures Resolve(args, loaded).Continue? <==> args.mode.value == "debug" || args.mode.value == "normal"
    ensures Resolve(args, loaded).Exit? ==> Resolve(args, loaded) == Exit(1, InvalidMode)
  {
  }

  /** The process goes on exactly when there is no early exit, no clash and no bad mode. */
  lemma ContinueExactly(args: Args, loaded: GreeterSettings)
    ensures Resolve(args, loaded).Continue? <==>
      !EarlyExit(args) && ModeFlags(args) <= 1 &&
      (args.mode.Some? ==> args.mode.value == "debug" || args.mode.value == "normal")
  {
  }

  /**
   * When the process goes on: --theme replaces the loaded theme; --debug or
   * --mode=debug turn debug mode on, --normal or --mode=normal turn it off, and
   * otherwise the loaded value stays; nothing else is touched.
   */
  lemma ContinuedConfiguration(args: Args, loaded: GreeterSettings)
    requires Resolve(args, loaded).Continue?
    ensures var c := Resolve(args, loaded).config;
      c.theme == (if args.theme.Some? then args.theme.value else loaded.theme) &&
      c.debugMode == (if args.debug || args.mode == Some("debug") then true
                      else if args.normal || args.mode == Some("normal") then false
                      else loaded.debugMode)
  {
  }

  /**
   * g_application_parse_args after option parsing. `loaded` stands for what
   * load_configuration reads. The returned outcome is the decision table's; on
   * an early exit the configuration was never loaded, and on a later exit it was
   * loaded and the theme override already applied.
   */
  method ParseArgs(g: Greeter, args: Args, loaded: GreeterSettings) returns (outcome: Outcome)
    modifies g`config
    ensures outcome == Resolve(args, loaded)
    ensures outcome.Continue? ==> g.config == outcome.config
    ensures EarlyExit(args) ==> g.config == old(g.config)
    ensures outcome.Exit? && !EarlyExit(args) ==>
      g.config == if args.theme.Some? then loaded.(theme := args.theme.value) else loaded
  {
    if args.version {
      return Exit(0, PrintVersion);
    }
    if args.apiVersion {
      return Exit(0, PrintApiVersion);
    }
    if args.list {
      return Exit(0, ListThemes);
    }

    g.config := loaded;

    if args.theme.Some? {
      g.config := g.config.(theme := args.theme.value);
    }

    var debug, normal := args.debug, args.normal;
    if args.mode.Some? && debug && normal {
      return Exit(1, ConflictModeDebugNormal);
    } else if args.mode.Some? && debug {
      return Exit(1, ConflictModeDebug);
    } else if args.mode.Some? && normal {
      return Exit(1, ConflictModeNormal);
    } else if debug && normal {
      return Exit(1, ConflictDebugNormal);
    }

    if args.mode.Some? && args.mode.value == "debug" {
      debug := true;
    } else if args.mode.Some? && args.mode.value == "normal" {
      normal := true;
    } else if args.mode.Some? {
      return Exit(1, InvalidMode);
    }

    if debug {
      g.config := g.config.(debugMode := true);
    } else if normal {
      g.config := g.config.(debugMode := false);
    }
    outcome := Continue(g.config);
  }
}
