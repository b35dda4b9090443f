/**
 * The control process's shared state: the array of greeter windows
 * (`greeter_browsers`), the greeter configuration, and the record of calls the
 * process makes into code outside this model.
 */
module Registry {
  import opened Settings
  import opened Messages
  import opened WebViews
  import opened Browsers

  /** The four bridge handlers every unclaimed message is offered to. */
  datatype Handler = LightDMHandler | GreeterConfigHandler | ThemeUtilsHandler | GreeterCommHandler

  /** A call into the toolkit, the theme loader or a bridge handler, recorded in the order it is made. */
  datatype Call =
    | GrabFocus(view: WebView)
    | PresentWindow(view: WebView)
    | LoadTheme(browser: Browser)
    | Reload(view: WebView)
    | Accessor(handler: Handler, view: WebView, message: UserMessage)
    | SendReply(request: UserMessage, reply: UserMessage)
    | DestroyWindow(browser: Browser)

  class Greeter {
    /** greeter_browsers: one window per monitor, in monitor order. */
    var browsers: seq<Browser>
    /** greeter_config->greeter */
    var config: GreeterSettings
    /** Every outside call made so far, oldest first. */
    var calls: seq<Call>

    constructor (config: GreeterSettings)
      ensures browsers == [] && this.config == config && calls == []
    {
      browsers := [];
      this.config := config;
      calls := [];
    }
  }

  /** g_ptr_array_remove: drop the first occurrence of `x`, if any; later elements move down. */
  function RemoveFirst<T(==)>(s: seq<T>, x: T): (r: seq<T>)
    ensures |r| == if x in s then |s| - 1 else |s|
    ensures forall y :: y in r ==> y in s
  {
    if s == [] then []
    else if s[0] == x then s[1..]
    else [s[0]] + RemoveFirst(s[1..], x)
  }

  /** Index of the first occurrence of `x` in `s`. */
  function FirstIndex<T(==)>(s: seq<T>, x: T): (k: nat)
    requires x in s
    ensures k < |s| && s[k] == x && x !in s[..k]
  {
    if s[0] == x then 0 else 1 + FirstIndex(s[1..], x)
  }

  /** Removing an absent element changes nothing; otherwise exactly its first occurrence is cut out. */
  lemma {:induction false} RemoveFirstSpec<T>(s: seq<T>, x: T)
    ensures x !in s ==> RemoveFirst(s, x) == s
    ensures x in s ==> RemoveFirst(s, x) == s[..FirstIndex(s, x)] + s[FirstIndex(s, x) + 1..]
  {
    if s != [] && s[0] != x {
      RemoveFirstSpec(s[1..], x);
      if x in s {
        var k := FirstIndex(s[1..], x);
        calc {
          RemoveFirst(s, x);
          [s[0]] + (s[1..][..k] + s[1..][k + 1..]);
          { assert [s[0]] + s[1..][..k] == s[..k + 1]; assert s[1..][k + 1..] == s[k + 2..]; }
          s[..k + 1] + s[k + 2..];
        }
      }
    }
  }

  /** In an array without repeats, removal takes the element out entirely and keeps everything else. */
  lemma {:induction false} RemoveFirstDistinct<T>(s: seq<T>, x: T)
    requires forall i, j :: 0 <= i < j < |s| ==> s[i] != s[j]
    ensures x !in RemoveFirst(s, x)
    ensures forall y :: y != x ==> (y in RemoveFirst(s, x) <==> y in s)
  {
    if s != [] {
      RemoveFirstDistinct(s[1..], x);
      if s[0] == x {
        assert forall j :: 1 <= j < |s| ==> s[j] != s[0];
      }
    }
  }

  /**
   * browser_finalize: destroy the toolkit window, then remove the window from
   * greeter_browsers.
   */
  method Finalize(g: Greeter, browser: Browser)
    modifies g`browsers, g`calls
    ensures g.browsers == RemoveFirst(old(g.browsers), browser)
    ensures g.calls == old(g.calls) + [DestroyWindow(browser)]
  {
    g.calls := g.calls + [DestroyWindow(browser)];
    g.browsers := RemoveFirst(g.browsers, browser);
  }
}
