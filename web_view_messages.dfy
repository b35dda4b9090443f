/**
 * How a window's web view handles a message from its web page
 * (src/browser-web-view.c): "ready-to-show" shows the window once, "console"
 * asks the user how to recover from a theme error and replies, and every other
 * message goes to the four bridge handlers.
 */
module WebViewMessages {
  import opened Options
  import opened Settings
  import opened Messages
  import opened WebViews
  import opened Browsers
  import opened Registry

  const ReadyToShow: string := "ready-to-show"
  const Console: string := "console"

  /** The buttons of the error prompt, by the response code they produce. */
  const ERROR_PROMPT_CANCEL: int := 0
  const ERROR_PROMPT_DEFAULT_THEME: int := 1
  const ERROR_PROMPT_RELOAD_THEME: int := 2

  /** The built-in theme the prompt can switch to. */
  const DefaultTheme: string := "gruvbox"

  /** What the prompt does to every registered window. */
  datatype Broadcast = NoBroadcast | LoadThemeEverywhere | ReloadEverywhere

  /** The outcome of the error prompt: the reply flag, a new theme if any, and the fan-out. */
  datatype PromptDecision = PromptDecision(stopPrompts: bool, newTheme: Option<string>, broadcast: Broadcast)

  /**
   * The switch over the dialog's response. "Use default theme" acts only when the
   * view sits in a greeter window; an unknown response acts like Cancel.
   */
  function Decide(response: int, rootIsBrowser: bool): (d: PromptDecision)
    ensures d.stopPrompts <==> d.broadcast != NoBroadcast
    ensures d.newTheme.Some? <==> d.broadcast == LoadThemeEverywhere
    ensures d.newTheme.Some? ==> d.newTheme.value == DefaultTheme
  {
    if response == ERROR_PROMPT_DEFAULT_THEME && rootIsBrowser then
      PromptDecision(true, Some(DefaultTheme), LoadThemeEverywhere)
    else if response == ERROR_PROMPT_RELOAD_THEME then
      PromptDecision(true, None, ReloadEverywhere)
    else
      PromptDecision(false, None, NoBroadcast)
  }

  /** The calls one fan-out makes: one per window, in array order. */
  function BroadcastCalls(broadcast: Broadcast, browsers: seq<Browser>): (cs: seq<Call>)
    ensures broadcast == NoBroadcast ==> cs == []
    ensures broadcast != NoBroadcast ==> |cs| == |browsers|
    ensures broadcast == LoadThemeEverywhere ==>
      forall i :: 0 <= i < |browsers| ==> cs[i] == LoadTheme(browsers[i])
    ensures broadcast == ReloadEverywhere ==>
      forall i :: 0 <= i < |browsers| ==> cs[i] == Reload(browsers[i].webView)
  {
    if broadcast == NoBroadcast || browsers == [] then []
    else
      var last := browsers[|browsers| - 1];
      BroadcastCalls(broadcast, browsers[..|browsers| - 1])
        + [if broadcast == LoadThemeEverywhere then LoadTheme(last) else Reload(last.webView)]
  }

  /** Taking one more window into a fan-out adds that window's call at the end. */
  lemma BroadcastStep(broadcast: Broadcast, browsers: seq<Browser>, i: nat)
    requires broadcast != NoBroadcast && i < |browsers|
    ensures BroadcastCalls(broadcast, browsers[..i + 1]) == BroadcastCalls(broadcast, browsers[..i]) +
      [if broadcast == LoadThemeEverywhere then LoadTheme(browsers[i]) else Reload(browsers[i].webView)]
  {
    assert browsers[..i + 1][..i] == browsers[..i];
  }

  /** show_console_error_prompt: the fan-out of the chosen response, then one "console-done" reply. */
  function ConsoleCalls(request: UserMessage, response: int, rootIsBrowser: bool, browsers: seq<Browser>): seq<Call>
  {
    var d := Decide(response, rootIsBrowser);
    BroadcastCalls(d.broadcast, browsers) + [SendReply(request, ConsoleDone(d.stopPrompts))]
  }

  /** The part of the process state a message can change. */
  datatype Snapshot = Snapshot(loaded: bool, config: GreeterSettings, calls: seq<Call>)

  /**
   * browser_web_view_user_message_received_cb on an abstract state: the view's
   * `loaded` flag, the configuration and the calls made so far. `response` is the
   * answer the user gives if a prompt is shown; `rootIsBrowser` tells whether the
   * view's toplevel is a greeter window.
   */
  function Receive(s: Snapshot, view: WebView, message: UserMessage, response: int, rootIsBrowser: bool,
                   browsers: seq<Browser>): (r: Snapshot)
    ensures |r.calls| > |s.calls| || (message.name == ReadyToShow && s.loaded)
    ensures |r.calls| >= |s.calls| && r.calls[..|s.calls|] == s.calls
    ensures s.loaded ==> r.loaded
    ensures r.loaded != s.loaded ==> message.name == ReadyToShow
    ensures message.name != Console ==> r.config == s.config
  {
    if message.name == ReadyToShow then
      if s.loaded then s
      else Snapshot(true, s.config, s.calls + [GrabFocus(view), PresentWindow(view)])
    else if message.name == Console then
      var d := Decide(response, rootIsBrowser);
      var config := if d.newTheme.Some? then s.config.(theme := d.newTheme.value) else s.config;
      Snapshot(s.loaded, config, s.calls + ConsoleCalls(message, response, rootIsBrowser, browsers))
    else
      Snapshot(s.loaded, s.config, s.calls + [
        Accessor(LightDMHandler, view, message),
        Accessor(GreeterConfigHandler, view, message),
        Accessor(ThemeUtilsHandler, view, message),
        Accessor(GreeterCommHandler, view, message)])
  }

  /** Deliver `messages` one after another to the same view. */
  function ReceiveAll(s: Snapshot, view: WebView, messages: seq<UserMessage>, response: int, rootIsBrowser: bool,
                      browsers: seq<Browser>): Snapshot
    decreases |messages|
  {
    if messages == [] then s
    else ReceiveAll(Receive(s, view, messages[0], response, rootIsBrowser, browsers),
                    view, messages[1..], response, rootIsBrowser, browsers)
  }

  /** The number of replies among `calls`. */
  function Replies(calls: seq<Call>): nat
  {
    if calls == [] then 0
    else (if calls[0].SendReply? then 1 else 0) + Replies(calls[1..])
  }

  lemma {:induction false} RepliesAppend(a: seq<Call>, b: seq<Call>)
    ensures Replies(a + b) == Replies(a) + Replies(b)
  {
    if a == [] {
      assert a + b == b;
    } else {
      assert (a + b)[0] == a[0];
      assert (a + b)[1..] == a[1..] + b;
      RepliesAppend(a[1..], b);
    }
  }

  /** Any fan-out replies to nobody. */
  lemma {:induction false} BroadcastSendsNoReply(broadcast: Broadcast, browsers: seq<Browser>)
    ensures Replies(BroadcastCalls(broadcast, browsers)) == 0
  {
    if broadcast != NoBroadcast && browsers != [] {
      var init := browsers[..|browsers| - 1];
      BroadcastSendsNoReply(broadcast, init);
      var last := browsers[|browsers| - 1];
      RepliesAppend(BroadcastCalls(broadcast, init),
        [if broadcast == LoadThemeEverywhere then LoadTheme(last) else Reload(last.webView)]);
    }
  }

  /** A "ready-to-show" to a view not yet shown focuses it and presents its window, once, and marks it loaded. */
  lemma FirstReadyToShow(s: Snapshot, view: WebView, message: UserMessage, response: int, rootIsBrowser: bool,
                         browsers: seq<Browser>)
    requires message.name == ReadyToShow && !s.loaded
    ensures Receive(s, view, message, response, rootIsBrowser, browsers)
         == Snapshot(true, s.config, s.calls + [GrabFocus(view), PresentWindow(view)])
  {
  }

  /** Any number of "ready-to-show" messages has the effect of the first one alone. */
  lemma {:induction false} ReadyToShowIdempotent(s: Snapshot, view: WebView, messages: seq<UserMessage>,
                                                 response: int, rootIsBrowser: bool, browsers: seq<Browser>)
    requires messages != []
    requires forall i :: 0 <= i < |messages| ==> messages[i].name == ReadyToShow
    decreases |messages|
    ensures ReceiveAll(s, view, messages, response, rootIsBrowser, browsers)
         == Receive(s, view, messages[0], response, rootIsBrowser, browsers)
  {
    var s1 := Receive(s, view, messages[0], response, rootIsBrowser, browsers);
    assert s1.loaded;
    if |messages| > 1 {
      var rest := messages[1..];
      assert Receive(s1, view, rest[0], response, rootIsBrowser, browsers) == s1;
      ReadyToShowIdempotent(s1, view, rest, response, rootIsBrowser, browsers);
      assert ReceiveAll(s1, view, rest, response, rootIsBrowser, browsers) == s1;
    }
  }

  /** Once the view is loaded, a further "ready-to-show" leaves the whole state as it was. */
  lemma ReadyToShowWhenLoaded(s: Snapshot, view: WebView, message: UserMessage, response: int, rootIsBrowser: bool,
                              browsers: seq<Browser>)
    requires message.name == ReadyToShow && s.loaded
    ensures Receive(s, view, message, response, rootIsBrowser, browsers) == s
  {
  }

  /** No call among `calls[from..]` focuses a view or presents a window. */
  predicate NoShowCallsFrom(calls: seq<Call>, from: nat)
  {
    forall i :: from <= i < |calls| ==> !calls[i].GrabFocus? && !calls[i].PresentWindow?
  }

  /** On a loaded view, one message of any name keeps `loaded` and neither focuses nor presents. */
  lemma {:induction false} LoadedReceive(s: Snapshot, view: WebView, message: UserMessage, response: int,
                                         rootIsBrowser: bool, browsers: seq<Browser>)
    requires s.loaded
    ensures var s' := Receive(s, view, message, response, rootIsBrowser, browsers);
      s'.loaded && NoShowCallsFrom(s'.calls, |s.calls|)
  {
    var s' := Receive(s, view, message, response, rootIsBrowser, browsers);
    if message.name == Console {
      var d := Decide(response, rootIsBrowser);
      var bc := BroadcastCalls(d.broadcast, browsers);
      assert s'.calls == s.calls + bc + [SendReply(message, ConsoleDone(d.stopPrompts))];
      forall i | |s.calls| <= i < |s'.calls|
        ensures !s'.calls[i].GrabFocus? && !s'.calls[i].PresentWindow?
      {
        if i < |s.calls| + |bc| {
          assert s'.calls[i] == bc[i - |s.calls|];
        }
      }
    }
  }

  /**
   * Once `loaded` is set, no later mix of messages clears it, and none of them focuses
   * the view or presents the window a second time.
   */
  lemma {:induction false} LoadedIsFinal(s: Snapshot, view: WebView, messages: seq<UserMessage>, response: int,
                                         rootIsBrowser: bool, browsers: seq<Browser>)
    requires s.loaded
    decreases |messages|
    ensures var s' := ReceiveAll(s, view, messages, response, rootIsBrowser, browsers);
      s'.loaded && |s'.calls| >= |s.calls| && s'.calls[..|s.calls|] == s.calls &&
      NoShowCallsFrom(s'.calls, |s.calls|)
  {
    if messages != [] {
      var s1 := Receive(s, view, messages[0], response, rootIsBrowser, browsers);
      LoadedReceive(s, view, messages[0], response, rootIsBrowser, browsers);
      LoadedIsFinal(s1, view, messages[1..], response, rootIsBrowser, browsers);
      var s' := ReceiveAll(s1, view, messages[1..], response, rootIsBrowser, browsers);
      assert s'.calls[..|s.calls|] == s'.calls[..|s1.calls|][..|s.calls|];
      forall i | |s.calls| <= i < |s'.calls|
        ensures !s'.calls[i].GrabFocus? && !s'.calls[i].PresentWindow?
      {
        if i < |s1.calls| {
          assert s'.calls[i] == s'.calls[..|s1.calls|][i] == s1.calls[i];
        }
      }
    }
  }

  /**
   * "ready-to-show" and "console" are handled here and never reach a bridge handler;
   * "ready-to-show" changes neither the configuration nor sends a reply.
   */
  lemma {:induction false} ClaimedMessagesNotForwarded(s: Snapshot, view: WebView, message: UserMessage, response: int,
                                                       rootIsBrowser: bool, browsers: seq<Browser>)
    requires message.name == ReadyToShow || message.name == Console
    ensures var s' := Receive(s, view, message, response, rootIsBrowser, browsers);
      |s'.calls| >= |s.calls| && s'.calls[..|s.calls|] == s.calls &&
      forall i :: |s.calls| <= i < |s'.calls| ==> !s'.calls[i].Accessor?
    ensures message.name == ReadyToShow ==>
      Receive(s, view, message, response, rootIsBrowser, browsers).config == s.config
  {
    if message.name == Console {
      var d := Decide(response, rootIsBrowser);
      var added := ConsoleCalls(message, response, rootIsBrowser, browsers);
      var bc := BroadcastCalls(d.broadcast, browsers);
      assert added == bc + [SendReply(message, ConsoleDone(d.stopPrompts))];
      forall i | 0 <= i < |added|
        ensures !added[i].Accessor?
      {
        if i < |bc| {
          assert added[i] == bc[i];
        }
      }
    }
  }

  /**
   * Every other name goes, unchanged, to the lightdm, greeter_config, theme_utils and
   * greeter_comm handlers in that order; nothing is rejected and nothing else changes.
   */
  lemma OtherMessagesForwarded(s: Snapshot, view: WebView, message: UserMessage, response: int,
                               rootIsBrowser: bool, browsers: seq<Browser>)
    requires message.name != ReadyToShow && message.name != Console
    ensures var s' := Receive(s, view, message, response, rootIsBrowser, browsers);
      s'.loaded == s.loaded && s'.config == s.config &&
      s'.calls == s.calls + [Accessor(LightDMHandler, view, message), Accessor(GreeterConfigHandler, view, message),
                             Accessor(ThemeUtilsHandler, view, message), Accessor(GreeterCommHandler, view, message)]
  {
  }

  /**
   * A "console" message gets exactly one reply, the last call made, named
   * "console-done" and carrying the "(b)" stop_prompts flag.
   */
  lemma {:induction false} ConsoleRepliesOnce(s: Snapshot, view: WebView, message: UserMessage, response: int,
                                              rootIsBrowser: bool, browsers: seq<Browser>)
    requires message.name == Console
    ensures var s' := Receive(s, view, message, response, rootIsBrowser, browsers);
      var added := s'.calls[|s.calls|..];
      Replies(added) == 1 &&
      added[|added| - 1] == SendReply(message, ConsoleDone(Decide(response, rootIsBrowser).stopPrompts)) &&
      added[|added| - 1].reply.name == "console-done"
  {
    var d := Decide(response, rootIsBrowser);
    var s' := Receive(s, view, message, response, rootIsBrowser, browsers);
    var bc := BroadcastCalls(d.broadcast, browsers);
    var reply := SendReply(message, ConsoleDone(d.stopPrompts));
    assert s'.calls[|s.calls|..] == bc + [reply];
    BroadcastSendsNoReply(d.broadcast, browsers);
    RepliesAppend(bc, [reply]);
    assert Replies([reply]) == 1 + Replies([]);
  }

  /** Cancel, or any response the prompt does not know, replies false and changes nothing else. */
  lemma ConsoleCancel(s: Snapshot, view: WebView, message: UserMessage, response: int,
                      rootIsBrowser: bool, browsers: seq<Browser>)
    requires message.name == Console
    requires response != ERROR_PROMPT_DEFAULT_THEME && response != ERROR_PROMPT_RELOAD_THEME
    ensures Receive(s, view, message, response, rootIsBrowser, browsers)
         == Snapshot(s.loaded, s.config, s.calls + [SendReply(message, ConsoleDone(false))])
  {
  }

  /**
   * "Use default theme" from a greeter window: the theme becomes "gruvbox", every
   * window reloads its theme in array order, and the reply says stop prompting.
   * From any other toplevel nothing happens and the reply is false.
   */
  lemma ConsoleDefaultTheme(s: Snapshot, view: WebView, message: UserMessage, rootIsBrowser: bool,
                            browsers: seq<Browser>)
    requires message.name == Console
    ensures var s' := Receive(s, view, message, ERROR_PROMPT_DEFAULT_THEME, rootIsBrowser, browsers);
      var added := s'.calls[|s.calls|..];
      s'.loaded == s.loaded && s'.calls[..|s.calls|] == s.calls &&
      if rootIsBrowser then
        s'.config == s.config.(theme := "gruvbox") &&
        |added| == |browsers| + 1 &&
        (forall i :: 0 <= i < |browsers| ==> added[i] == LoadTheme(browsers[i])) &&
        added[|browsers|] == SendReply(message, ConsoleDone(true))
      else
        s'.config == s.config && added == [SendReply(message, ConsoleDone(false))]
  {
    var s' := Receive(s, view, message, ERROR_PROMPT_DEFAULT_THEME, rootIsBrowser, browsers);
    assert s'.calls[|s.calls|..] == ConsoleCalls(message, ERROR_PROMPT_DEFAULT_THEME, rootIsBrowser, browsers);
  }

  /** "Reload theme": every window's web view reloads in array order, the theme stays, the reply is true. */
  lemma ConsoleReloadTheme(s: Snapshot, view: WebView, message: UserMessage, rootIsBrowser: bool,
                           browsers: seq<Browser>)
    requires message.name == Console
    ensures var s' := Receive(s, view, message, ERROR_PROMPT_RELOAD_THEME, rootIsBrowser, browsers);
      var added := s'.calls[|s.calls|..];
      s'.loaded == s.loaded && s'.config == s.config && s'.calls[..|s.calls|] == s.calls &&
      |added| == |browsers| + 1 &&
      (forall i :: 0 <= i < |browsers| ==> added[i] == Reload(browsers[i].webView)) &&
      added[|browsers|] == SendReply(message, ConsoleDone(true))
  {
    var s' := Receive(s, view, message, ERROR_PROMPT_RELOAD_THEME, rootIsBrowser, browsers);
    assert s'.calls[|s.calls|..] == ConsoleCalls(message, ERROR_PROMPT_RELOAD_THEME, rootIsBrowser, browsers);
  }

  /**
   * show_console_error_prompt with the dialog's answer given as `response`. The
   * decoded (sssu) report only fills the dialog's text, which is not modelled.
   */
  method ShowConsoleErrorPrompt(g: Greeter, message: UserMessage, response: int, rootIsBrowser: bool)
    modifies g`config, g`calls
    ensures var d := Decide(response, rootIsBrowser);
      g.config == if d.newTheme.Some? then old(g.config).(theme := d.newTheme.value) else old(g.config)
    ensures g.calls == old(g.calls) + ConsoleCalls(message, response, rootIsBrowser, g.browsers)
  {
    var stopPrompts := false;
    if response == ERROR_PROMPT_CANCEL {
    } else if response == ERROR_PROMPT_DEFAULT_THEME {
      if rootIsBrowser {
        stopPrompts := true;
        g.config := g.config.(theme := DefaultTheme);
        for i := 0 to |g.browsers|
          invariant g.calls == old(g.calls) + BroadcastCalls(LoadThemeEverywhere, g.browsers[..i])
          invariant g.config == old(g.config).(theme := DefaultTheme)
        {
          BroadcastStep(LoadThemeEverywhere, g.browsers, i);
          g.calls := g.calls + [LoadTheme(g.browsers[i])];
        }
        assert g.browsers[..|g.browsers|] == g.browsers;
      }
    } else if response == ERROR_PROMPT_RELOAD_THEME {
      stopPrompts := true;
      for i := 0 to |g.browsers|
        invariant g.calls == old(g.calls) + BroadcastCalls(ReloadEverywhere, g.browsers[..i])
        invariant g.config == old(g.config)
      {
        BroadcastStep(ReloadEverywhere, g.browsers, i);
        g.calls := g.calls + [Reload(g.browsers[i].webView)];
      }
      assert g.browsers[..|g.browsers|] == g.browsers;
    }
    g.calls := g.calls + [SendReply(message, ConsoleDone(stopPrompts))];
  }

  /**
   * browser_web_view_user_message_received_cb: the new state is `Receive` of the old.
   */
  method UserMessageReceived(g: Greeter, view: WebView, message: UserMessage, response: int, rootIsBrowser: bool)
    modifies g`config, g`calls, view`loaded
    ensures Snapshot(view.loaded, g.config, g.calls)
         == Receive(Snapshot(old(view.loaded), old(g.config), old(g.calls)), view, message, response, rootIsBrowser, g.browsers)
  {
    if message.name == ReadyToShow {
      if view.loaded {
        return;
      }
      g.calls := g.calls + [GrabFocus(view)];
      g.calls := g.calls + [PresentWindow(view)];
      view.loaded := true;
      return;
    }
    if message.name == Console {
      ShowConsoleErrorPrompt(g, message, response, rootIsBrowser);
      return;
    }
    g.calls := g.calls + [Accessor(LightDMHandler, view, message)];
    g.calls := g.calls + [Accessor(GreeterConfigHandler, view, message)];
    g.calls := g.calls + [Accessor(ThemeUtilsHandler, view, message)];
    g.calls := g.calls + [Accessor(GreeterCommHandler, view, message)];
  }
}
