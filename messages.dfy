/**
 * Bridge messages as the control process sees them: a name and an optional
 * GVariant payload (WebKitUserMessage).
 */
module Messages {
  import opened Options

  newtype uint32 = x: int | 0 <= x < 0x1_0000_0000

  /** The GVariant values that the control process builds or takes apart. */
  datatype Variant =
    | VString(s: string)
    | VUint32(u: uint32)
    | VBool(b: bool)
    | VTuple(items: seq<Variant>)

  datatype UserMessage = UserMessage(name: string, parameters: Option<Variant>)

  /** A console error report: type, message text, source id and line. Missing strings are None (NULL). */
  datatype ConsoleReport = ConsoleReport(kind: Option<string>, message: Option<string>, sourceId: Option<string>, line: uint32)

  /** The GVariant type "(sssu)". */
  predicate IsConsoleShape(v: Variant)
  {
    v.VTuple? && |v.items| == 4 &&
    v.items[0].VString? && v.items[1].VString? && v.items[2].VString? && v.items[3].VUint32?
  }

  /** How the web process packs a console error report. */
  function EncodeConsole(kind: string, message: string, sourceId: string, line: uint32): (v: Variant)
    ensures IsConsoleShape(v)
  {
    VTuple([VString(kind), VString(message), VString(sourceId), VUint32(line)])
  }

  /**
   * g_variant_get(params, "(sssu)", ...) into locals that start as NULL, NULL, NULL, 0:
   * when the payload is missing or has another type the locals keep those values.
   */
  function DecodeConsole(parameters: Option<Variant>): (r: ConsoleReport)
    ensures r.kind.Some? <==> parameters.Some? && IsConsoleShape(parameters.value)
    ensures r.kind.None? ==> r == ConsoleReport(None, None, None, 0)
  {
    match parameters
    case Some(v) =>
      if IsConsoleShape(v) then
        ConsoleReport(Some(v.items[0].s), Some(v.items[1].s), Some(v.items[2].s), v.items[3].u)
      else ConsoleReport(None, None, None, 0)
    case None => ConsoleReport(None, None, None, 0)
  }

  /** Decoding gives back every field the web process packed. */
  lemma DecodeEncodeConsole(kind: string, message: string, sourceId: string, line: uint32)
    ensures DecodeConsole(Some(EncodeConsole(kind, message, sourceId, line)))
         == ConsoleReport(Some(kind), Some(message), Some(sourceId), line)
  {
  }

  const ConsoleDoneName: string := "console-done"

  /** The single reply to a console message: name "console-done", payload "(b)". */
  function ConsoleDone(stopPrompts: bool): (m: UserMessage)
    ensures m.name == ConsoleDoneName
  {
    UserMessage(ConsoleDoneName, Some(VTuple([VBool(stopPrompts)])))
  }

  /** What the web process reads from a "console-done" reply: the "(b)" boolean, if present. */
  function StopPromptsOf(reply: UserMessage): Option<bool>
  {
    match reply.parameters
    case Some(VTuple(items)) =>
      if |items| == 1 && items[0].VBool? then Some(items[0].b) else None
    case _ => None
  }

  /** The reply carries exactly the flag it was built from. */
  lemma ConsoleDoneCarriesFlag(stopPrompts: bool)
    ensures StopPromptsOf(ConsoleDone(stopPrompts)) == Some(stopPrompts)
    ensures ConsoleDone(stopPrompts).parameters == Some(VTuple([VBool(stopPrompts)]))
  {
  }
}
