/** Where PlatformInit looks for the URL of the alphaTab script
    (Environment.cs:52-98), as a decision over what the host reports.

    `Resolve` states the outcome case by case; `Platform.Environment.PlatformInit`
    follows the statements of the source and is proved to agree with it. */
module ScriptLocator {
  import opened Wrappers
  import StackTrace

  /** A `<script>` element; only its `src` matters here. */
  datatype ScriptElement = ScriptElement(src: string)

  /** Everything PlatformInit observes of the JavaScript host. */
  datatype Host = Host(
    /** `self instanceof WorkerGlobalScope` */
    isWorker: bool,
    /** `self.document` is truthy */
    hasDocument: bool,
    /** `document.fonts && document.fonts.load` exist */
    fontsApi: bool,
    /** `document.currentScript` */
    currentScript: Option<ScriptElement>,
    /** the `stack` of the new `Error`, read before it is thrown (line 62) */
    freshStack: Option<string>,
    /** the `stack` of the same `Error` read again after it was thrown (line 72);
        some engines fill it in only when the error is thrown */
    thrownStack: Option<string>,
    /** `document.querySelector("script[data-alphatab]")` */
    marker: Option<ScriptElement>,
    /** the engine behind `String.prototype.match` */
    regex: StackTrace.Engine)

  /** In JavaScript an empty string is falsy, so an empty stack counts as none. */
  predicate HasStack(stack: Option<string>)
  {
    stack.Some? && stack.value != ""
  }

  /** `string.IsNullOrEmpty` */
  predicate IsNullOrEmpty(s: Option<string>)
  {
    s.None? || s.value == ""
  }

  /** The stack text the lookup parses when `currentScript` is missing: the one
      read before the throw, else the one read after it, else none. */
  function ParsedStack(host: Host): (stack: Option<string>)
    ensures stack.Some? ==> stack.value != ""
    ensures stack.Some? <==> HasStack(host.freshStack) || HasStack(host.thrownStack)
  {
    if HasStack(host.freshStack) then host.freshStack
    else if HasStack(host.thrownStack) then host.thrownStack
    else None
  }

  /** The new value of ScriptFile, and whether the warning is written to the console. */
  datatype Resolution = Resolution(scriptFile: Option<string>, warned: bool)

  /** The outcome of the script lookup, from the previous value of ScriptFile. */
  function Resolve(previous: Option<string>, host: Host): (r: Resolution)
    ensures r.warned ==> host.hasDocument && host.currentScript.None? && IsNullOrEmpty(r.scriptFile)
    ensures !IsNullOrEmpty(previous) && r.scriptFile != previous ==>
              host.currentScript.None? && ParsedStack(host).Some?
  {
    if !host.hasDocument then
      Resolution(previous, false)
    else if host.currentScript.Some? then
      if IsNullOrEmpty(previous) then Resolution(Some(host.currentScript.value.src), false)
      else Resolution(previous, false)
    else if ParsedStack(host).Some? then
      var parsed := StackTrace.ScriptFileFromStack(ParsedStack(host).value, host.regex);
      Resolution(parsed, IsNullOrEmpty(parsed))
    else if !IsNullOrEmpty(previous) then
      Resolution(previous, false)
    else if host.marker.Some? then
      Resolution(Some(host.marker.value.src), false)
    else
      Resolution(previous, true)
  }

  /** The element the lookup ends up holding at line 88: `currentScript`, or the
      marker element when it was queried, which is only without a usable stack. */
  function FoundElement(host: Host): Option<ScriptElement>
  {
    if host.currentScript.Some? then host.currentScript
    else if ParsedStack(host).Some? then None
    else host.marker
  }

  /** ScriptFile after the automatic steps, before the fallback of lines 86-97. */
  function AutomaticResult(previous: Option<string>, host: Host): Option<string>
  {
    if host.currentScript.None? && ParsedStack(host).Some? then
      StackTrace.ScriptFileFromStack(ParsedStack(host).value, host.regex)
    else previous
  }

  // ---------------------------------------------------------------------------
  // Properties

  /** Without a document (a worker) nothing changes and nothing is reported. */
  lemma NoDocumentNoChange(previous: Option<string>, host: Host)
    requires !host.hasDocument
    ensures Resolve(previous, host) == Resolution(previous, false)
  {
  }

  /** With `currentScript`, its `src` is used when ScriptFile is empty, a set
      ScriptFile is kept, and neither stack nor the marker is looked at. */
  lemma CurrentScriptWins(previous: Option<string>, host: Host, other: Host)
    requires host.hasDocument && host.currentScript.Some?
    requires other == host.(freshStack := other.freshStack, thrownStack := other.thrownStack,
                            marker := other.marker, regex := other.regex)
    ensures Resolve(previous, host) == Resolve(previous, other)
    ensures !Resolve(previous, host).warned
    ensures Resolve(previous, host).scriptFile ==
            if IsNullOrEmpty(previous) then Some(host.currentScript.value.src) else previous
  {
  }

  /** The marker element is consulted only when `currentScript` is absent and
      the error has no stack, neither before nor after it is thrown: otherwise
      the outcome does not depend on it. */
  lemma MarkerOnlyWithoutStack(previous: Option<string>, host: Host, marker: Option<ScriptElement>)
    requires host.currentScript.Some? || HasStack(host.freshStack) || HasStack(host.thrownStack)
    ensures Resolve(previous, host) == Resolve(previous, host.(marker := marker))
  {
  }

  /** A stack that appears only once the error is thrown is parsed just like one
      present from the start (lines 72-80). */
  lemma ThrownStackParsed(previous: Option<string>, host: Host)
    requires !HasStack(host.freshStack) && HasStack(host.thrownStack)
    ensures Resolve(previous, host) == Resolve(previous, host.(freshStack := host.thrownStack))
    ensures host.hasDocument && host.currentScript.None? ==>
            Resolve(previous, host).scriptFile ==
            StackTrace.ScriptFileFromStack(host.thrownStack.value, host.regex)
  {
  }

  /** A stack that yields no URL leads to the warning, not to the marker, and
      leaves ScriptFile null even if it was set before. */
  lemma UnparsedStackWarns(previous: Option<string>, host: Host)
    requires host.hasDocument && host.currentScript.None? && ParsedStack(host).Some?
    requires forall p :: host.regex.Run(p, ParsedStack(host).value).None?
    ensures Resolve(previous, host) == Resolution(None, true)
  {
  }

  /** The warning is written exactly when ScriptFile is still empty after the
      automatic steps and no element was found; in every other empty case
      ScriptFile becomes the found element's `src`. */
  lemma WarningExactlyWhenUnresolved(previous: Option<string>, host: Host)
    requires host.hasDocument
    ensures var r := Resolve(previous, host);
            var auto := AutomaticResult(previous, host);
            (r.warned <==> IsNullOrEmpty(auto) && FoundElement(host).None?) &&
            (IsNullOrEmpty(auto) && FoundElement(host).Some? ==>
               r.scriptFile == Some(FoundElement(host).value.src)) &&
            (!IsNullOrEmpty(auto) ==> r.scriptFile == auto)
  {
  }

  /** A URL taken from the stack has the shape of the patterns' group 1. */
  lemma ParsedUrlShape(previous: Option<string>, host: Host)
    requires host.hasDocument && host.currentScript.None? && ParsedStack(host).Some?
    requires host.regex.Sound()
    requires !Resolve(previous, host).warned
    ensures var url := Resolve(previous, host).scriptFile;
            url.Some? && StackTrace.UrlLike(url.value) &&
            exists i :: StackTrace.FollowedByPosition(ParsedStack(host).value, i, url.value)
  {
    StackTrace.ExtractedUrlShape(ParsedStack(host).value, host.regex);
  }
}
