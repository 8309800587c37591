# alphaTab JavaScript environment bootstrap

A Dafny model of `Source/AlphaTab.JavaScript/Environment.cs` from alphaTab, the
browser half of the static `Environment` class. When alphaTab starts in a
browser it:

- registers its render engines and file loader;
- starts detecting whether the alphaTab music font has loaded (`IsFontLoaded`);
- looks for the URL of its own script (`ScriptFile`), which it later uses to start a web worker.

The model has six modules:

- `Wrappers`: `Option`, standing for the source's nullable values.
- `StackTrace`: `ScriptFileFromStack`. The regex engine is a parameter. A match
  is a parse witness that follows the structure of the three patterns
  (lines 104, 107 and 110): what precedes group 1, group 1 itself (a `Token`),
  the `:line[:column]` suffix, and the rest. `Engine.Sound` says every reported
  match parses the stack. `Engine.Complete` says "no match" is reported only
  when no parse exists.
- `ScriptLocator`: everything `PlatformInit` observes of the host (`Host`), and
  `Resolve`, which gives the new `ScriptFile` and whether the console warning is
  written, case by case. The error's `stack` is read twice, as in the source:
  `freshStack` before the error is thrown (line 62) and `thrownStack` in the
  `catch` block (line 72). `ParsedStack` is the one that gets parsed.
- `FontCheck`: `CheckFontLoad` and the `checkFont` closure as a state machine.
  The state is the flag, whether the probe element exists, the pending re-check
  timers, the pending `DOMContentLoaded` listener and the pending
  `document.fonts.load` promise. The host's event loop is a sequence of
  `Event`s.
- `Registry`: the factory maps, with last-write-wins updates.
- `Platform`: class `Environment`, holding the static fields and the
  detector's part of the page. Its methods follow the statements of the source
  and are proved against the functions above.

When `currentScript` is missing and the error has a stack, line 68 (or line 80)
assigns the parse result even if `ScriptFile` was set before `PlatformInit`
ran, and even when the result is null. `ScriptLocator.UnparsedStackWarns`
states this.

## Model

| member | source | states |
|---|---|---|
| `StackTrace.ScriptFileFromStack` | Source/AlphaTab.JavaScript/Environment.cs:102-118 | the result is null exactly when all three patterns fail; otherwise it is group 1 of the first pattern, in the order of lines 104, 107, 110, that matched |
| `StackTrace.ExtractedUrlShape` | Source/AlphaTab.JavaScript/Environment.cs:104-110 | for a sound engine, a non-null result starts with `data:text/javascript` or with optional `blob:` and then `http://`, `https://` or `file://`, and in the stack it is immediately followed by `:` and a digit, so the line/column suffix is never part of it |
| `StackTrace.NullExactlyWhenNoPatternMatches` | Source/AlphaTab.JavaScript/Environment.cs:102-118 | for a sound and complete engine, null is returned exactly when none of the three patterns has a parse of the stack |
| `StackTrace.TokenIsUrlLike` | Source/AlphaTab.JavaScript/Environment.cs:104-110 | every text group 1 can capture has one of the URL prefixes the patterns allow |
| `StackTrace.CaptureFollowedByPosition` | Source/AlphaTab.JavaScript/Environment.cs:104-110 | in every parse, group 1 is followed by `:` and the first digit of the line number |
| `StackTrace.SingleCandidateCapture` | Source/AlphaTab.JavaScript/Environment.cs:104-110 | in a stack where only one place can begin a URL, and the first `:` and digit after it come after the last `/`, every parse by any pattern captures exactly the text between the two |
| `StackTrace.SingleCandidateResolves` | Source/AlphaTab.JavaScript/Environment.cs:102-118 | with a sound and complete engine, such a stack that has a parse resolves to that text |
| `StackTrace.AtStackCapture` | Source/AlphaTab.JavaScript/Environment.cs:104-110 | every parse of the Chrome-style stack `Error` / `    at https://example.com/app/alphaTab.js:42:7`, by any pattern, captures `https://example.com/app/alphaTab.js` |
| `StackTrace.AtStackResolves` | Source/AlphaTab.JavaScript/Environment.cs:102-118 | with a sound and complete engine, that stack resolves to `https://example.com/app/alphaTab.js` |
| `StackTrace.FrameStackCapture` | Source/AlphaTab.JavaScript/Environment.cs:104-110 | every parse of the Firefox-style frame `init@https://example.com/app/alphaTab.js:42:7`, by any pattern, captures `https://example.com/app/alphaTab.js` |
| `StackTrace.FrameStackResolves` | Source/AlphaTab.JavaScript/Environment.cs:102-118 | with a sound and complete engine, that frame, which pattern 2 parses through its `[^:@]*@` alternative, resolves to `https://example.com/app/alphaTab.js`, whichever pattern reports the match |
| `StackTrace.ParenStackCapture` | Source/AlphaTab.JavaScript/Environment.cs:104-110 | every parse of the frame `render()@https://example.com/app/alphaTab.js:42:7`, by any pattern, captures `https://example.com/app/alphaTab.js` |
| `StackTrace.ParenStackResolves` | Source/AlphaTab.JavaScript/Environment.cs:102-118 | with a sound and complete engine, that frame, which pattern 3 parses after `)@`, resolves to `https://example.com/app/alphaTab.js` |
| `ScriptLocator.ParsedStack` | Source/AlphaTab.JavaScript/Environment.cs:59-81 | the stack that gets parsed is never empty, and it exists exactly when the stack read before the throw or the one read in the `catch` block is truthy |
| `ScriptLocator.Resolve` | Source/AlphaTab.JavaScript/Environment.cs:52-98 | a warning is written only with a document, without `currentScript` and with `ScriptFile` left null or empty; a non-empty `ScriptFile` is changed only when `currentScript` is missing and a stack is parsed |
| `ScriptLocator.NoDocumentNoChange` | Source/AlphaTab.JavaScript/Environment.cs:52-98 | without a document, `ScriptFile` is unchanged and no warning is written |
| `ScriptLocator.CurrentScriptWins` | Source/AlphaTab.JavaScript/Environment.cs:55-97 | with `currentScript`, an empty `ScriptFile` becomes its `src`, a set one is kept, there is no warning, and neither the stack nor the marker element affects the outcome |
| `ScriptLocator.MarkerOnlyWithoutStack` | Source/AlphaTab.JavaScript/Environment.cs:59-82 | the `script[data-alphatab]` element matters only when `currentScript` is missing and the error has no (or an empty) stack |
| `ScriptLocator.ThrownStackParsed` | Source/AlphaTab.JavaScript/Environment.cs:70-81 | when the error has no stack until it is thrown, the stack read in the `catch` block is parsed, with the same outcome as if it had been there from the start |
| `ScriptLocator.UnparsedStackWarns` | Source/AlphaTab.JavaScript/Environment.cs:59-92 | a stack that none of the patterns matches leads to the warning and a null `ScriptFile`, whatever `ScriptFile` held before |
| `ScriptLocator.WarningExactlyWhenUnresolved` | Source/AlphaTab.JavaScript/Environment.cs:86-97 | the warning is written exactly when `ScriptFile` is null or empty after the automatic steps and no element was found; otherwise an empty `ScriptFile` becomes the found element's `src`, and a non-empty one is kept |
| `ScriptLocator.ParsedUrlShape` | Source/AlphaTab.JavaScript/Environment.cs:68-80 | a `ScriptFile` taken from the stack without a warning has the URL shape of group 1 and occurs in the stack before `:` and a digit |
| `Registry.Register` | Source/AlphaTab.JavaScript/Environment.cs:41-44 | a registration adds or replaces exactly one name and leaves every other lookup unchanged |
| `Registry.LastWriteWins` | Source/AlphaTab.JavaScript/Environment.cs:41-42 | registering a name twice is the same as registering only the second factory |
| `FontCheck.CheckFontLoad` | Source/AlphaTab.JavaScript/Environment.cs:120-144 | in a worker the flag is cleared and nothing else changes; otherwise the flag and probe are untouched and exactly one of the font request or the `DOMContentLoaded` listener is registered |
| `FontCheck.CheckFont` | Source/AlphaTab.JavaScript/Environment.cs:145-179 | a probe is created only when none exists; a width with 30 < w < 100 sets the flag and removes the probe; any other width leaves the flag, keeps the probe and schedules exactly one more re-check |
| `FontCheck.WidthBoundaries` | Source/AlphaTab.JavaScript/Environment.cs:167 | both bounds are exclusive: 30 and 100 are rejected, 31, 50 and 99 accepted |
| `FontCheck.LoadedIsMonotone` | Source/AlphaTab.JavaScript/Environment.cs:135-178 | once the flag is set, no sequence of events clears it |
| `FontCheck.WorkerStaysUnloaded` | Source/AlphaTab.JavaScript/Environment.cs:122-128 | in a worker the flag is false and stays so: no font request, listener, probe or timer is ever created, whatever events follow |
| `FontCheck.PollingStartsInInvariant` | Source/AlphaTab.JavaScript/Environment.cs:142-183 | the polling path starts with one listener and no probe, timer or flag |
| `FontCheck.PollingInvariantHolds` | Source/AlphaTab.JavaScript/Environment.cs:145-183 | during polling at most one callback is outstanding, at most one probe is ever created, and the probe exists exactly while a re-check is pending |
| `FontCheck.PollingOutcome` | Source/AlphaTab.JavaScript/Environment.cs:145-183 | after the measurements `widths`, the flag is set exactly when some width was in (30, 100); one probe was created; if not loaded, the probe remains and one re-check is pending, and if loaded, the probe is gone and nothing is pending |
| `FontCheck.FontApiPathOutcome` | Source/AlphaTab.JavaScript/Environment.cs:131-141 | with the CSS Font Loading API the flag is set exactly when the completion event has occurred, and no probe, timer or listener ever exists |
| `FontCheck.Deliver` | Source/AlphaTab.JavaScript/Environment.cs:135-183 | one event never clears the flag, the completion event sets it, a used-up listener or font request never comes back, and the count of probes created never falls |
| `FontCheck.Run` | Source/AlphaTab.JavaScript/Environment.cs:135-183 | over any sequence of events, a used-up font request never comes back, nor a listener once both are used up, and the count of probes created never falls |
| `FontCheck.RunAppend` | Source/AlphaTab.JavaScript/Environment.cs:174-183 | delivering one more event acts on the state reached so far |
| `Platform.Environment.constructor` | Source/AlphaTab.JavaScript/Environment.cs:36-37 | `ScriptFile` starts null and `IsFontLoaded` false, with no probe, timer, listener or font request pending |
| `Platform.Environment.PlatformInit` | Source/AlphaTab.JavaScript/Environment.cs:39-99 | writes the four registry entries, starts the font detection as `CheckFontLoad` says, and sets `ScriptFile` and the warning count as `Resolve` says |
| `Platform.Environment.RegisterFactories` | Source/AlphaTab.JavaScript/Environment.cs:41-44 | the render engines `svg`, `default`, `html5` and the file loader `default` are (re)registered |
| `Platform.Environment.LocateScript` | Source/AlphaTab.JavaScript/Environment.cs:51-98 | the try/catch lookup, reading the error's stack before the throw and again in the `catch` block, gives the outcome `Resolve` states |
| `Platform.Environment.StartFontCheck` | Source/AlphaTab.JavaScript/Environment.cs:120-185 | changes the detector state as `CheckFontLoad` says |
| `Platform.Environment.CheckFontStep` | Source/AlphaTab.JavaScript/Environment.cs:145-179 | changes the detector state as `CheckFont` says |
| `Platform.Environment.OnFontsLoaded` | Source/AlphaTab.JavaScript/Environment.cs:135-140 | the completion callback sets the flag and is used up |
| `Platform.Environment.OnDomContentLoaded` | Source/AlphaTab.JavaScript/Environment.cs:180-183 | the listener fires once and runs one check |
| `Platform.Environment.OnRecheck` | Source/AlphaTab.JavaScript/Environment.cs:174-177 | a pending re-check fires and runs one check |
| `Platform.Environment.RunRechecks` | Source/AlphaTab.JavaScript/Environment.cs:174-178 | running the pending re-checks in turn reaches the state `Run` gives for those events, and stops only when none is pending |

## Left out

- The regex engine: which match JavaScript picks (leftmost, lazy `.+?`, backtracking order, the lookahead of line 107) is not modelled. The engine is a parameter. Properties about its results assume it is sound, and the null case also assumes it is complete.
- An exception thrown by `ScriptFileFromStack` itself inside the `try` block (line 68): the modelled parser is total, so the `catch` block is reached only through the throw of line 65.
- The text of the console warning: only the number of warnings is kept.
- The `Math.log2` polyfill (line 49): foreign JavaScript with no decision in it.
- The constructors of `FontSvgCanvas`, `Html5Canvas` and `JsFileLoader` (lines 41-44): a factory is kept only as the name of the class it builds. The initial contents of `RenderEngines` and `FileLoaders`, set in another part of the class, are not modelled: the model starts them empty.
- The probe element's DOM details (lines 152-162, 170): id, styles, class, glyph, append and remove are reduced to whether the probe exists. A page that already holds an element with id `alphaTabFontChecker` is not modelled.
- Timers, `DOMContentLoaded` and the `document.fonts.load` promise: the model delivers them as explicit events, with each measured `offsetWidth` attached. If `DOMContentLoaded` has already fired when the listener is added, polling never starts; in the model that event is simply never delivered.
- Nothing bounds the number of re-checks, as in the source. `FontCheck.PollingOutcome` describes any finite prefix of that unbounded polling.
